/** RSI divergence between the two latest price pivots. A missing or non-finite
    value is `None`; numbers are reals. */
module Divergence {
  import opened Basics

  type Column = seq<Option<real>>

  predicate Positive(v: Option<real>) { v.Some? && v.value > 0.0 }

  predicate Beyond(low: bool, a: real, b: real) { if low then a < b else a > b }

  predicate Below(values: Column, center: nat, i: nat, low: bool)
    requires center < |values| && values[center].Some?
  {
    i < |values| && Positive(values[i]) && Beyond(low, values[center].value, values[i].value)
  }

  /** Strictly beyond every neighbour within `width` rows on both sides. */
  predicate IsPivot(values: Column, center: nat, width: nat, low: bool)
    requires width <= center
  {
    && center < |values| && Positive(values[center])
    && forall i :: center - width <= i <= center + width && i != center ==> Below(values, center, i, low)
  }

  predicate ValidRsi(v: Option<real>) { v.Some? && 0.0 <= v.value <= 100.0 }

  /** Enough rows for two confirmed pivots of this width. */
  predicate Enough(prices: Column, rsi: Column, width: nat) {
    && width > 0
    && 2 * width + 2 <= |prices|
    && |prices| == |rsi|
  }

  /** Price and momentum disagree between two pivots. */
  predicate Disagrees(prices: Column, rsi: Column, latest: nat, previous: nat, minimumChange: real, low: bool)
    requires latest < |prices| == |rsi| && previous < |prices|
    requires prices[latest].Some? && prices[previous].Some? && ValidRsi(rsi[latest])
  {
    && ValidRsi(rsi[previous])
    && Beyond(low, prices[latest].value, prices[previous].value)
    && var change := if low then rsi[latest].value - rsi[previous].value else rsi[previous].value - rsi[latest].value;
    && change > 0.0 && change >= minimumChange
  }

  /** The nearest earlier pivot that the search may still reach. */
  ghost predicate Nearest(prices: Column, width: nat, low: bool, first: nat, end: nat, p: nat) {
    && width <= first <= p < end && IsPivot(prices, p, width, low)
    && forall q :: p < q < end ==> !IsPivot(prices, q, width, low)
  }

  function First(latest: nat, distance: nat, width: nat): nat {
    var bound := if latest < distance then 0 else latest - distance;
    if bound < width then width else bound
  }

  /** The pivot the search stops at, and what it says. */
  ghost predicate Decides(prices: Column, rsi: Column, width: nat, low: bool, first: nat, latest: nat,
                          minimumChange: real, p: nat)
    requires width <= latest < |prices| == |rsi| && prices[latest].Some? && ValidRsi(rsi[latest])
  {
    && Nearest(prices, width, low, first, latest - width, p)
    && Disagrees(prices, rsi, latest, p, minimumChange, low)
  }

  /** What the bounded search decides. */
  ghost predicate Diverges(prices: Column, rsi: Column, width: nat, distance: nat, minimumChange: real, low: bool) {
    && Enough(prices, rsi, width)
    && var latest := |prices| - width - 1;
    && IsPivot(prices, latest, width, low)
    && ValidRsi(rsi[latest])
    && exists p :: Decides(prices, rsi, width, low, First(latest, distance, width), latest, minimumChange, p)
  }

  /** The reverse loop with its early returns. */
  method SearchDivergence(prices: Column, rsi: Column, width: nat, distance: nat, minimumChange: real, low: bool)
    returns (found: bool)
    ensures found <==> Diverges(prices, rsi, width, distance, minimumChange, low)
  {
    var room := if |prices| < 2 then 0 else (|prices| - 2) / 2;
    if width == 0 || width > room || |prices| != |rsi| { return false; }
    var latest := |prices| - width - 1;
    if !IsPivot(prices, latest, width, low) { return false; }
    if !ValidRsi(rsi[latest]) { return false; }
    var first := First(latest, distance, width);
    var previous := latest - width;
    while previous > first
      invariant width <= previous <= latest - width || previous == latest - width
      invariant forall q :: previous <= q < latest - width ==> q >= width && !IsPivot(prices, q, width, low)
    {
      previous := previous - 1;
      if IsPivot(prices, previous, width, low) {
        found := Disagrees(prices, rsi, latest, previous, minimumChange, low);
        assert found ==> Decides(prices, rsi, width, low, first, latest, minimumChange, previous);
        return;
      }
    }
    return false;
  }

  /** A positive price strictly below (above) every other within `width` rows. */
  ghost predicate Extreme(values: Column, c: int, width: nat, low: bool) {
    && width <= c < |values| - width && values[c] != None && values[c].value > 0.0
    && forall i :: c - width <= i <= c + width && i != c ==>
      && values[i] != None && values[i].value > 0.0
      && (if low then values[c].value < values[i].value else values[i].value < values[c].value)
  }

  /** A lower low of the price with a higher momentum, or a higher high with a
      lower one, by at least the minimum. */
  ghost predicate Diverging(prices: Column, rsi: Column, minimumChange: real, low: bool, last: int, p: int) {
    && 0 <= p < last < |prices| == |rsi|
    && prices[last] != None && prices[p] != None && rsi[last] != None && rsi[p] != None
    && 0.0 <= rsi[last].value <= 100.0 && 0.0 <= rsi[p].value <= 100.0
    && if low then
         && prices[last].value < prices[p].value
         && rsi[last].value > rsi[p].value && rsi[last].value >= rsi[p].value + minimumChange
       else
         && prices[last].value > prices[p].value
         && rsi[last].value < rsi[p].value && rsi[last].value + minimumChange <= rsi[p].value
  }

  ghost predicate Found(prices: Column, rsi: Column, width: nat, distance: nat, minimumChange: real, low: bool,
                        last: int, p: int)
  {
    && Extreme(prices, last, width, low) && Extreme(prices, p, width, low)
    && p < last <= p + distance && (forall c :: p < c < last ==> !Extreme(prices, c, width, low))
    && Diverging(prices, rsi, minimumChange, low, last, p)
  }

  lemma PivotMeans(values: Column, c: nat, width: nat, low: bool)
    requires width <= c
    ensures IsPivot(values, c, width, low) <==> Extreme(values, c, width, low)
  {
    if IsPivot(values, c, width, low) {
      assert width > 0 ==> Below(values, c, c + width, low);
      forall i | c - width <= i <= c + width && i != c
        ensures 0 <= i < |values| && values[i] != None && values[i].value > 0.0
        ensures if low then values[c].value < values[i].value else values[i].value < values[c].value
      {
        assert Below(values, c, i, low);
      }
    }
    if Extreme(values, c, width, low) {
      forall i | c - width <= i <= c + width && i != c ensures Below(values, c, i, low) { }
    }
  }

  /** Two extremes of one kind are more than `width` rows apart. */
  lemma ExtremesApart(values: Column, a: int, b: int, width: nat, low: bool)
    requires a < b && Extreme(values, a, width, low) && Extreme(values, b, width, low)
    ensures b - a > width
  {
  }

  lemma DecidesMeans(prices: Column, rsi: Column, width: nat, distance: nat, minimumChange: real, low: bool,
                     last: nat, p: nat)
    requires width <= last < |prices| == |rsi| && ValidRsi(rsi[last]) && Extreme(prices, last, width, low)
    ensures Decides(prices, rsi, width, low, First(last, distance, width), last, minimumChange, p) <==>
            Found(prices, rsi, width, distance, minimumChange, low, last, p)
  {
    if width <= p < last {
      PivotMeans(prices, p, width, low);
      if Extreme(prices, p, width, low) { ExtremesApart(prices, p, last, width, low); }
      forall c | p < c < last
        ensures IsPivot(prices, c, width, low) <==> Extreme(prices, c, width, low)
        ensures Extreme(prices, c, width, low) ==> c < last - width
      {
        PivotMeans(prices, c, width, low);
        if Extreme(prices, c, width, low) { ExtremesApart(prices, c, last, width, low); }
      }
    }
  }

  ghost predicate SomewhereFound(prices: Column, rsi: Column, width: nat, distance: nat, minimumChange: real, low: bool,
                                 last: int)
  {
    exists p :: Found(prices, rsi, width, distance, minimumChange, low, last, p)
  }

  /** The search in plain words, gaps in the data included: the newest confirmable
      row against the nearest earlier extreme of its kind. */
  lemma FoundExactly(prices: Column, rsi: Column, width: nat, distance: nat, minimumChange: real, low: bool)
    ensures Diverges(prices, rsi, width, distance, minimumChange, low) <==>
            width > 0 && SomewhereFound(prices, rsi, width, distance, minimumChange, low, |prices| - width - 1)
  {
    var last := |prices| - width - 1;
    if Diverges(prices, rsi, width, distance, minimumChange, low) {
      PivotMeans(prices, last, width, low);
      var p: nat :| Decides(prices, rsi, width, low, First(last, distance, width), last, minimumChange, p);
      DecidesMeans(prices, rsi, width, distance, minimumChange, low, last, p);
    }
    if width > 0 && SomewhereFound(prices, rsi, width, distance, minimumChange, low, last) {
      var p: nat :| Found(prices, rsi, width, distance, minimumChange, low, last, p);
      PivotMeans(prices, last, width, low);
      DecidesMeans(prices, rsi, width, distance, minimumChange, low, last, p);
    }
  }

  // ----- the reference: scan the whole history -----

  predicate Beats(prices: seq<real>, center: nat, i: nat, low: bool)
    requires center < |prices| && i < |prices|
  {
    Beyond(low, prices[center], prices[i])
  }

  predicate StrictAt(prices: seq<real>, center: nat, width: nat, low: bool)
    requires width <= center && center + width < |prices|
  {
    forall i :: center - width <= i <= center + width && i != center ==> Beats(prices, center, i, low)
  }

  /** Every pivot with its centre before `end`, in order. */
  function Pivots(prices: seq<real>, width: nat, low: bool, end: nat): (r: seq<nat>)
    requires end + width <= |prices|
    ensures forall i :: 0 <= i < |r| ==> width <= r[i] < end && StrictAt(prices, r[i], width, low)
    ensures forall c :: width <= c < end && StrictAt(prices, c, width, low) ==> c in r
    ensures forall i, j :: 0 <= i < j < |r| ==> r[i] < r[j]
  {
    if end <= width then []
    else
      var rest := Pivots(prices, width, low, end - 1);
      if StrictAt(prices, end - 1, width, low) then rest + [end - 1] else rest
  }

  /** The last two pivots of the history, if the newest is just confirmed. */
  predicate Reference(prices: seq<real>, rsi: seq<real>, width: nat, distance: nat, low: bool)
    requires |prices| == |rsi|
  {
    && 2 * width + 1 <= |prices|
    && var pivots := Pivots(prices, width, low, |prices| - width);
    && |pivots| >= 2
    && var last, previous := pivots[|pivots| - 1], pivots[|pivots| - 2];
    && last == |prices| - width - 1
    && last - previous <= distance
    && Beyond(low, prices[last], prices[previous])
    && Beyond(low, rsi[previous], rsi[last])
  }

  function Lifted(xs: seq<real>): (r: Column)
    ensures |r| == |xs| && forall i :: 0 <= i < |xs| ==> r[i] == Some(xs[i])
  {
    seq(|xs|, i requires 0 <= i < |xs| => Some(xs[i]))
  }

  ghost predicate AllPositive(prices: seq<real>) { forall i :: 0 <= i < |prices| ==> prices[i] > 0.0 }

  lemma PivotIsStrict(prices: seq<real>, c: nat, width: nat, low: bool)
    requires AllPositive(prices) && width <= c && c + width < |prices|
    ensures IsPivot(Lifted(prices), c, width, low) <==> StrictAt(prices, c, width, low)
  {
    var column := Lifted(prices);
    if IsPivot(column, c, width, low) {
      forall i | c - width <= i <= c + width && i != c ensures Beats(prices, c, i, low) {
        assert Below(column, c, i, low);
      }
    }
    if StrictAt(prices, c, width, low) {
      forall i | c - width <= i <= c + width && i != c ensures Below(column, c, i, low) {
        assert Beats(prices, c, i, low);
      }
    }
  }

  /** Strict pivots of one kind are more than `width` rows apart. */
  lemma PivotsApart(prices: seq<real>, a: nat, b: nat, width: nat, low: bool)
    requires width <= a < b && b + width < |prices|
    requires StrictAt(prices, a, width, low) && StrictAt(prices, b, width, low)
    ensures b - a > width
  {
    assert b - a <= width ==> Beats(prices, a, b, low);
    assert Beats(prices, a, b, low) ==> !Beats(prices, b, a, low);
  }

  /** The pivots of a history whose newest confirmable row is one of them. */
  ghost predicate EndsAt(prices: seq<real>, width: nat, low: bool, pivots: seq<nat>) {
    && |prices| >= 2 * width + 1 && pivots == Pivots(prices, width, low, |prices| - width)
    && pivots != [] && pivots[|pivots| - 1] == |prices| - width - 1
  }

  lemma PreviousIsNearest(prices: seq<real>, width: nat, low: bool, first: nat, pivots: seq<nat>)
    requires AllPositive(prices) && width <= first && EndsAt(prices, width, low, pivots)
    requires |pivots| >= 2 && first <= pivots[|pivots| - 2]
    ensures Nearest(Lifted(prices), width, low, first, |prices| - 2 * width - 1, pivots[|pivots| - 2])
  {
    var n, latest := |pivots|, |prices| - width - 1;
    var p := pivots[n - 2];
    PivotsApart(prices, p, latest, width, low);
    PivotIsStrict(prices, p, width, low);
    forall q | p < q < latest - width ensures !IsPivot(Lifted(prices), q, width, low) {
      PivotIsStrict(prices, q, width, low);
      assert q !in pivots by { NotBetween(pivots, q); }
    }
  }

  lemma NotBetween(pivots: seq<nat>, q: nat)
    requires |pivots| >= 2 && pivots[|pivots| - 2] < q < pivots[|pivots| - 1]
    requires forall i, j :: 0 <= i < j < |pivots| ==> pivots[i] < pivots[j]
    ensures q !in pivots
  {
    forall i | 0 <= i < |pivots| ensures pivots[i] != q {
      if i < |pivots| - 2 { assert pivots[i] < pivots[|pivots| - 2]; }
    }
  }

  lemma SecondLast(pivots: seq<nat>, latest: nat, p: nat)
    requires pivots != [] && pivots[|pivots| - 1] == latest && p in pivots && p < latest
    requires forall i, j :: 0 <= i < j < |pivots| ==> pivots[i] < pivots[j]
    ensures |pivots| >= 2 && p <= pivots[|pivots| - 2] < latest
  {
  }

  lemma NearestIsPrevious(prices: seq<real>, width: nat, low: bool, first: nat, pivots: seq<nat>, p: nat)
    requires AllPositive(prices) && EndsAt(prices, width, low, pivots)
    requires Nearest(Lifted(prices), width, low, first, |prices| - 2 * width - 1, p)
    ensures |pivots| >= 2 && pivots[|pivots| - 2] == p
  {
    var latest := |prices| - width - 1;
    PivotIsStrict(prices, p, width, low);
    SecondLast(pivots, latest, p);
    var q := pivots[|pivots| - 2];
    PivotsApart(prices, q, latest, width, low);
    PivotIsStrict(prices, q, width, low);
  }

  lemma DivergesMeans(prices: seq<real>, rsi: seq<real>, width: nat, distance: nat, low: bool, pivots: seq<nat>)
    requires |prices| == |rsi| && width > 0 && AllPositive(prices) && EndsAt(prices, width, low, pivots)
    requires 2 * width + 2 <= |prices| && forall i :: 0 <= i < |rsi| ==> 0.0 <= rsi[i] <= 100.0
    ensures Diverges(Lifted(prices), Lifted(rsi), width, distance, 0.0, low)
            <==> (|pivots| >= 2 && First(|prices| - width - 1, distance, width) <= pivots[|pivots| - 2]
                  && Disagrees(Lifted(prices), Lifted(rsi), |prices| - width - 1, pivots[|pivots| - 2], 0.0, low))
  {
    var latest := |prices| - width - 1;
    var first := First(latest, distance, width);
    PivotIsStrict(prices, latest, width, low);
    if Diverges(Lifted(prices), Lifted(rsi), width, distance, 0.0, low) {
      var p: nat :| Decides(Lifted(prices), Lifted(rsi), width, low, first, latest, 0.0, p);
      NearestIsPrevious(prices, width, low, first, pivots, p);
    }
    if |pivots| >= 2 && first <= pivots[|pivots| - 2] {
      PreviousIsNearest(prices, width, low, first, pivots);
      assert Disagrees(Lifted(prices), Lifted(rsi), latest, pivots[|pivots| - 2], 0.0, low) ==>
               Decides(Lifted(prices), Lifted(rsi), width, low, first, latest, 0.0, pivots[|pivots| - 2]);
    }
  }

  lemma SameDecision(prices: seq<real>, rsi: seq<real>, width: nat, distance: nat, low: bool, last: nat, previous: nat)
    requires |prices| == |rsi| && width <= previous < last < |prices|
    requires forall i :: 0 <= i < |rsi| ==> 0.0 <= rsi[i] <= 100.0
    ensures (First(last, distance, width) <= previous
             && Disagrees(Lifted(prices), Lifted(rsi), last, previous, 0.0, low))
            <==> (last - previous <= distance && Beyond(low, prices[last], prices[previous])
                  && Beyond(low, rsi[previous], rsi[last]))
  {
  }

  lemma ReferenceMeans(prices: seq<real>, rsi: seq<real>, width: nat, distance: nat, low: bool, pivots: seq<nat>)
    requires |prices| == |rsi| && EndsAt(prices, width, low, pivots)
    requires forall i :: 0 <= i < |rsi| ==> 0.0 <= rsi[i] <= 100.0
    ensures Reference(prices, rsi, width, distance, low)
            <==> (|pivots| >= 2 && First(|prices| - width - 1, distance, width) <= pivots[|pivots| - 2]
                  && Disagrees(Lifted(prices), Lifted(rsi), |prices| - width - 1, pivots[|pivots| - 2], 0.0, low))
  {
    if |pivots| >= 2 {
      SameDecision(prices, rsi, width, distance, low, |prices| - width - 1, pivots[|pivots| - 2]);
    }
  }

  lemma LatestListed(prices: seq<real>, width: nat, low: bool, pivots: seq<nat>)
    requires |prices| >= 2 * width + 1 && pivots == Pivots(prices, width, low, |prices| - width)
    ensures StrictAt(prices, |prices| - width - 1, width, low) <==> EndsAt(prices, width, low, pivots)
  {
    var latest := |prices| - width - 1;
    if StrictAt(prices, latest, width, low) { assert latest in pivots; }
  }

  lemma OnePivot(prices: seq<real>, width: nat, low: bool)
    requires |prices| == 2 * width + 1
    ensures |Pivots(prices, width, low, width + 1)| <= 1
  {
    assert Pivots(prices, width, low, width) == [];
  }

  /** On clean data with no minimum change the bounded search is the full scan. */
  lemma BoundedIsFullScan(prices: seq<real>, rsi: seq<real>, width: nat, distance: nat, low: bool)
    requires |prices| == |rsi| && width > 0 && AllPositive(prices)
    requires forall i :: 0 <= i < |rsi| ==> 0.0 <= rsi[i] <= 100.0
    ensures Diverges(Lifted(prices), Lifted(rsi), width, distance, 0.0, low)
            <==> Reference(prices, rsi, width, distance, low)
  {
    if 2 * width + 2 <= |prices| {
      var pivots := Pivots(prices, width, low, |prices| - width);
      PivotIsStrict(prices, |prices| - width - 1, width, low);
      LatestListed(prices, width, low, pivots);
      if EndsAt(prices, width, low, pivots) {
        DivergesMeans(prices, rsi, width, distance, low, pivots);
        ReferenceMeans(prices, rsi, width, distance, low, pivots);
      }
    } else if 2 * width + 1 == |prices| {
      OnePivot(prices, width, low);
    }
  }

  // ----- bounded memory -----

  lemma PivotShifts(values: Column, k: nat, c: nat, d: nat, width: nat, low: bool)
    requires k <= |values| && width <= c && d == c + k
    ensures IsPivot(values[k..], c, width, low) <==> IsPivot(values, d, width, low)
  {
    if IsPivot(values[k..], c, width, low) {
      forall i | d - width <= i <= d + width && i != d ensures Below(values, d, i, low) {
        assert Below(values[k..], c, i - k, low);
      }
    }
    if IsPivot(values, d, width, low) {
      forall i | c - width <= i <= c + width && i != c ensures Below(values[k..], c, i, low) {
        assert Below(values, d, i + k, low);
      }
    }
  }

  lemma NearestShifts(values: Column, k: nat, width: nat, low: bool, first: nat, end: nat, p: nat)
    requires k <= |values| && width <= first
    ensures Nearest(values[k..], width, low, first, end, p)
            <==> Nearest(values, width, low, first + k, end + k, p + k)
  {
    if width <= p { PivotShifts(values, k, p, p + k, width, low); }
    if Nearest(values[k..], width, low, first, end, p) {
      forall q | p + k < q < end + k ensures !IsPivot(values, q, width, low) {
        PivotShifts(values, k, q - k, q, width, low);
      }
    }
    if Nearest(values, width, low, first + k, end + k, p + k) {
      forall q | p < q < end ensures !IsPivot(values[k..], q, width, low) {
        PivotShifts(values, k, q, q + k, width, low);
      }
    }
  }

  /** The pivot found and what it says, in the shortened history and in the whole. */
  lemma DecisionShifts(prices: Column, rsi: Column, k: nat, width: nat, low: bool, first: nat, latest: nat,
                       minimumChange: real, p: nat)
    requires k <= |prices| == |rsi| && width <= first && width <= latest && latest + k < |prices|
    requires prices[latest + k].Some? && ValidRsi(rsi[latest + k])
    ensures Decides(prices[k..], rsi[k..], width, low, first, latest, minimumChange, p)
            <==> Decides(prices, rsi, width, low, first + k, latest + k, minimumChange, p + k)
  {
    NearestShifts(prices, k, width, low, first, latest - width, p);
  }

  /** Both histories reach back to the same row. */
  lemma FirstShifts(short: nat, k: nat, distance: nat, width: nat)
    requires short == distance + width
    ensures First(short + k, distance, width) == First(short, distance, width) + k >= width
  {
  }

  /** Once the history is long enough, only its last distance + 2 width + 1 rows
      matter. */
  lemma OldRowsAreIgnored(prices: Column, rsi: Column, width: nat, distance: nat, minimumChange: real, low: bool, k: nat)
    requires |prices| == |rsi| && k + (distance + 2 * width + 1) == |prices|
    ensures Diverges(prices[k..], rsi[k..], width, distance, minimumChange, low)
            <==> Diverges(prices, rsi, width, distance, minimumChange, low)
  {
    var short := distance + width;
    var first := First(short, distance, width);
    FirstShifts(short, k, distance, width);
    PivotShifts(prices, k, short, short + k, width, low);
    if Diverges(prices[k..], rsi[k..], width, distance, minimumChange, low) {
      var p: nat :| Decides(prices[k..], rsi[k..], width, low, first, short, minimumChange, p);
      DecisionShifts(prices, rsi, k, width, low, first, short, minimumChange, p);
    } else if Diverges(prices, rsi, width, distance, minimumChange, low) {
      var p: nat :| Decides(prices, rsi, width, low, first + k, short + k, minimumChange, p);
      DecisionShifts(prices, rsi, k, width, low, first, short, minimumChange, p - k);
    }
  }
}
