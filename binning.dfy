/** Categorical binning with fixed cut points, as `pd.cut(values, bins=edges)`
    does it (intervals closed on the right, lowest edge excluded), and the mean
    of a score column per bin, as `groupby(bin).agg({"score": "mean"})`
    computes it. A bin is the index of its interval in the edge list. */
module Binning {
  import opened Frame

  predicate StrictlyIncreasing(edges: seq<real>)
  {
    forall i, j :: 0 <= i < j < |edges| ==> edges[i] < edges[j]
  }

  /** Bin `b` is the interval `(edges[b], edges[b + 1]]`. */
  predicate InBin(edges: seq<real>, b: nat, x: real)
  {
    b + 1 < |edges| && edges[b] < x <= edges[b + 1]
  }

  /** Scan the intervals from bin `i` on; every edge before `i` lies below `x`. */
  function FindBin(edges: seq<real>, x: real, i: nat): (b: Option<nat>)
    requires StrictlyIncreasing(edges)
    requires i == 0 || (i < |edges| && edges[i] < x)
    ensures b.Some? ==> i <= b.value && InBin(edges, b.value, x)
    ensures forall j: nat :: i <= j && InBin(edges, j, x) ==> b == Some(j)
    decreases |edges| - i
  {
    if i + 1 >= |edges| then None
    else if x <= edges[i + 1] then (if edges[i] < x then Some(i) else None)
    else FindBin(edges, x, i + 1)
  }

  /** The bin of a value; `None` for a missing value or one outside every interval. */
  function BinOf(edges: seq<real>, v: Option<real>): (b: Option<nat>)
    requires StrictlyIncreasing(edges)
    ensures b.Some? ==> v.Some? && InBin(edges, b.value, v.value)
    ensures forall j: nat :: v.Some? && InBin(edges, j, v.value) ==> b == Some(j)
  {
    if v.None? then None else FindBin(edges, v.value, 0)
  }

  /** `pd.cut` applied to a whole column. */
  function BinColumn(edges: seq<real>, values: seq<Option<real>>): (c: seq<Option<nat>>)
    requires StrictlyIncreasing(edges)
    ensures |c| == |values|
    ensures forall i :: 0 <= i < |c| ==> c[i] == BinOf(edges, values[i])
  {
    seq(|values|, i requires 0 <= i < |values| => BinOf(edges, values[i]))
  }

  lemma {:induction false} FindBinCovers(edges: seq<real>, x: real, i: nat)
    requires StrictlyIncreasing(edges)
    requires i + 1 < |edges|
    requires i == 0 || edges[i] < x
    requires edges[0] < x <= edges[|edges| - 1]
    ensures FindBin(edges, x, i).Some?
    decreases |edges| - i
  {
    if x > edges[i + 1] {
      FindBinCovers(edges, x, i + 1);
    }
  }

  /** Every value in `(edges[0], edges[last]]` gets a bin (exactly one, by `BinOf`'s contract). */
  lemma BinOfCovers(edges: seq<real>, x: real)
    requires StrictlyIncreasing(edges)
    requires |edges| >= 2
    requires edges[0] < x <= edges[|edges| - 1]
    ensures BinOf(edges, Some(x)).Some?
  {
    FindBinCovers(edges, x, 0);
  }

  /** A missing value, or one at or below the lowest edge or above the highest, gets no bin. */
  lemma BinOfOutside(edges: seq<real>, v: Option<real>)
    requires StrictlyIncreasing(edges)
    requires |edges| >= 2
    requires v.None? || v.value <= edges[0] || v.value > edges[|edges| - 1]
    ensures BinOf(edges, v).None?
  {
  }

  /** Binning is monotone: a larger value never gets an earlier bin. */
  lemma BinOfMonotone(edges: seq<real>, v: real, w: real)
    requires StrictlyIncreasing(edges)
    requires v <= w
    requires BinOf(edges, Some(v)).Some? && BinOf(edges, Some(w)).Some?
    ensures BinOf(edges, Some(v)).value <= BinOf(edges, Some(w)).value
  {
  }

  /** The present scores of the rows whose bin is `b`, in row order. */
  function ScoresInBin(bins: seq<Option<nat>>, scores: seq<Option<real>>, b: nat): (s: seq<real>)
    requires |bins| == |scores|
    ensures |s| <= |scores|
  {
    if |bins| == 0 then []
    else
      var n := |bins| - 1;
      ScoresInBin(bins[..n], scores[..n], b)
        + (if bins[n] == Some(b) && scores[n].Some? then [scores[n].value] else [])
  }

  /** The present scores of the rows whose value lies in interval `b`, in row order. */
  function ScoresInInterval(edges: seq<real>, values: seq<Option<real>>, scores: seq<Option<real>>, b: nat): seq<real>
    requires |values| == |scores|
  {
    if |values| == 0 then []
    else
      var n := |values| - 1;
      ScoresInInterval(edges, values[..n], scores[..n], b)
        + (if values[n].Some? && InBin(edges, b, values[n].value) && scores[n].Some? then [scores[n].value] else [])
  }

  /** Grouping by the binned column groups exactly the rows whose value lies in the interval. */
  lemma {:induction false} BinnedRowsAreIntervalRows(edges: seq<real>, values: seq<Option<real>>, scores: seq<Option<real>>, b: nat)
    requires StrictlyIncreasing(edges)
    requires |values| == |scores|
    ensures ScoresInBin(BinColumn(edges, values), scores, b) == ScoresInInterval(edges, values, scores, b)
  {
    if |values| > 0 {
      var n := |values| - 1;
      assert BinColumn(edges, values)[..n] == BinColumn(edges, values[..n]);
      BinnedRowsAreIntervalRows(edges, values[..n], scores[..n], b);
    }
  }

  /** Per-bin running totals of the present scores, as a one-pass group-by keeps them. */
  datatype Totals = Totals(sums: seq<real>, counts: seq<nat>)

  function Accumulate(bins: seq<Option<nat>>, scores: seq<Option<real>>, k: nat): (t: Totals)
    requires |bins| == |scores|
    ensures |t.sums| == k && |t.counts| == k
    ensures forall b :: 0 <= b < k ==>
      t.sums[b] == Sum(ScoresInBin(bins, scores, b)) && t.counts[b] == |ScoresInBin(bins, scores, b)|
  {
    if |bins| == 0 then Totals(seq(k, _ => 0.0), seq(k, _ => 0))
    else
      var n := |bins| - 1;
      var t := Accumulate(bins[..n], scores[..n], k);
      if bins[n].Some? && bins[n].value < k && scores[n].Some? then
        var b := bins[n].value;
        forall c | 0 <= c < k
          ensures Sum(ScoresInBin(bins, scores, c))
                  == Sum(ScoresInBin(bins[..n], scores[..n], c)) + (if c == b then scores[n].value else 0.0)
        {
          SumAppend(ScoresInBin(bins[..n], scores[..n], c), if c == b then [scores[n].value] else []);
        }
        Totals(t.sums[b := t.sums[b] + scores[n].value], t.counts[b := t.counts[b] + 1])
      else
        forall c | 0 <= c < k
          ensures ScoresInBin(bins, scores, c) == ScoresInBin(bins[..n], scores[..n], c)
        {
        }
        t
  }

  /** The mean score per bin `0 .. k-1`: `None` for a bin without any present score. */
  function GroupMean(bins: seq<Option<nat>>, scores: seq<Option<real>>, k: nat): (m: seq<Option<real>>)
    requires |bins| == |scores|
    ensures |m| == k
    ensures forall b :: 0 <= b < k ==> m[b] == Mean(ScoresInBin(bins, scores, b))
  {
    var t := Accumulate(bins, scores, k);
    seq(k, b requires 0 <= b < k => if t.counts[b] == 0 then None else Some(t.sums[b] / (t.counts[b] as real)))
  }

  lemma {:induction false} ScoresInBinBounded(bins: seq<Option<nat>>, scores: seq<Option<real>>, b: nat, lo: real, hi: real)
    requires |bins| == |scores|
    requires forall i :: 0 <= i < |scores| && scores[i].Some? ==> lo <= scores[i].value <= hi
    ensures forall i :: 0 <= i < |ScoresInBin(bins, scores, b)| ==> lo <= ScoresInBin(bins, scores, b)[i] <= hi
  {
    if |bins| > 0 {
      var n := |bins| - 1;
      ScoresInBinBounded(bins[..n], scores[..n], b, lo, hi);
    }
  }

  /** When every present score lies in `[lo, hi]`, so does every per-bin mean. */
  lemma GroupMeanBounded(bins: seq<Option<nat>>, scores: seq<Option<real>>, k: nat, lo: real, hi: real)
    requires |bins| == |scores|
    requires forall i :: 0 <= i < |scores| && scores[i].Some? ==> lo <= scores[i].value <= hi
    ensures forall b :: 0 <= b < k && GroupMean(bins, scores, k)[b].Some? ==>
      lo <= GroupMean(bins, scores, k)[b].value <= hi
  {
    var m := GroupMean(bins, scores, k);
    forall b | 0 <= b < k && m[b].Some?
      ensures lo <= m[b].value <= hi
    {
      ScoresInBinBounded(bins, scores, b, lo, hi);
      MeanBounds(ScoresInBin(bins, scores, b), lo, hi);
    }
  }
}
