/**
 * The run history's samples and the summary of a finished run: minimum,
 * maximum and mean of each telemetry field over the samples where that field
 * was present, and the elapsed time of the last sample.
 */
module SampleSummary {

  import opened Wrappers

  /** One history entry: seconds since the run began and the two readings, absent when the probe gave none. */
  datatype Sample = Sample(t: real, temp: Option<int>, util: Option<int>)

  /** The two telemetry fields of a sample. */
  datatype Field = Temp | Util

  function Reading(s: Sample, f: Field): Option<int> {
    match f
    case Temp => s.temp
    case Util => s.util
  }

  datatype Stats = Stats(min: int, max: int, avg: real)

  /** Statistics per field, each absent when no sample carried that field. */
  datatype Summary = Summary(temp: Option<Stats>, util: Option<Stats>, durationS: real)

  function FieldStats(s: Summary, f: Field): Option<Stats> {
    match f
    case Temp => s.temp
    case Util => s.util
  }

  /** One field of every sample, in history order. */
  function Column(h: seq<Sample>, f: Field): (c: seq<Option<int>>)
    ensures |c| == |h|
    ensures forall i :: 0 <= i < |h| ==> c[i] == Reading(h[i], f)
  {
    seq(|h|, i requires 0 <= i < |h| => Reading(h[i], f))
  }

  /** The present values of a column, in order, with the absent ones dropped. */
  function Present(xs: seq<Option<int>>): (r: seq<int>)
    ensures |r| <= |xs|
    ensures forall v :: v in r <==> Some(v) in xs
    ensures forall v :: multiset(r)[v] == multiset(xs)[Some(v)]
    ensures (forall i :: 0 <= i < |xs| ==> xs[i].None?) ==> r == []
  {
    if xs == [] then []
    else
      assert xs == [xs[0]] + xs[1..];
      assert multiset(xs) == multiset{xs[0]} + multiset(xs[1..]);
      (if xs[0].Some? then [xs[0].value] else []) + Present(xs[1..])
  }

  function Sum(xs: seq<int>): int {
    if xs == [] then 0 else xs[0] + Sum(xs[1..])
  }

  function Min(xs: seq<int>): (m: int)
    requires xs != []
    ensures m in xs && forall x :: x in xs ==> m <= x
  {
    if |xs| == 1 then xs[0]
    else
      assert xs == [xs[0]] + xs[1..];
      var rest := Min(xs[1..]);
      if xs[0] <= rest then xs[0] else rest
  }

  function Max(xs: seq<int>): (m: int)
    requires xs != []
    ensures m in xs && forall x :: x in xs ==> x <= m
  {
    if |xs| == 1 then xs[0]
    else
      assert xs == [xs[0]] + xs[1..];
      var rest := Max(xs[1..]);
      if xs[0] >= rest then xs[0] else rest
  }

  /** A sum of values that all lie in [lo, hi] lies in [n * lo, n * hi]. */
  lemma {:induction false} SumBetween(xs: seq<int>, lo: int, hi: int)
    requires forall i :: 0 <= i < |xs| ==> lo <= xs[i] <= hi
    ensures |xs| * lo <= Sum(xs) <= |xs| * hi
  {
    if xs != [] {
      SumBetween(xs[1..], lo, hi);
      assert |xs| * lo == lo + (|xs| - 1) * lo;
      assert |xs| * hi == hi + (|xs| - 1) * hi;
    }
  }

  /** The mean of n values whose sum lies in [n * lo, n * hi] lies in [lo, hi]. */
  lemma MeanBetween(sum: int, n: int, lo: int, hi: int)
    requires n > 0 && n * lo <= sum <= n * hi
    ensures lo as real <= sum as real / n as real <= hi as real
  {
    assert (n * lo) as real == n as real * lo as real;
    assert (n * hi) as real == n as real * hi as real;
  }

  /** Minimum, maximum and mean of a list of readings; absent for an empty list. */
  function StatsOf(xs: seq<int>): (r: Option<Stats>)
    ensures xs == [] <==> r.None?
    ensures r.Some? ==> r.value.min in xs && r.value.max in xs
    ensures r.Some? ==> forall x :: x in xs ==> r.value.min <= x <= r.value.max
    ensures r.Some? ==> r.value.min as real <= r.value.avg <= r.value.max as real
    ensures r.Some? ==> r.value.avg == Sum(xs) as real / |xs| as real
  {
    if xs == [] then None
    else
      var lo, hi := Min(xs), Max(xs);
      assert forall i :: 0 <= i < |xs| ==> xs[i] in xs;
      SumBetween(xs, lo, hi);
      MeanBetween(Sum(xs), |xs|, lo, hi);
      Some(Stats(lo, hi, Sum(xs) as real / |xs| as real))
  }

  /** The summary of a run's history; absent for an empty history. */
  function Summarize(h: seq<Sample>): (r: Option<Summary>)
    ensures h == [] <==> r.None?
    ensures r.Some? ==> r.value.durationS == h[|h| - 1].t
  {
    if h == [] then None
    else Some(Summary(StatsOf(Present(Column(h, Temp))), StatsOf(Present(Column(h, Util))), h[|h| - 1].t))
  }

  /**
   * A field's statistics are absent exactly when no sample carried that field,
   * whatever the other field holds.
   */
  lemma FieldAbsentExactly(h: seq<Sample>, f: Field)
    requires h != []
    ensures FieldStats(Summarize(h).value, f).None? <==> forall i :: 0 <= i < |h| ==> Reading(h[i], f).None?
  {
    var c := Column(h, f);
    if exists i :: 0 <= i < |h| && Reading(h[i], f).Some? {
      var i :| 0 <= i < |h| && Reading(h[i], f).Some?;
      assert c[i] == Some(Reading(h[i], f).value);
      assert Reading(h[i], f).value in Present(c);
    } else {
      assert forall i :: 0 <= i < |c| ==> c[i].None?;
    }
  }

  /** Every present reading of a field lies between that field's minimum and maximum, and the mean does too. */
  lemma ReadingWithinStats(h: seq<Sample>, f: Field, i: int)
    requires 0 <= i < |h| && Reading(h[i], f).Some?
    ensures Summarize(h).Some? && FieldStats(Summarize(h).value, f).Some?
    ensures var s := FieldStats(Summarize(h).value, f).value;
      s.min <= Reading(h[i], f).value <= s.max && s.min as real <= s.avg <= s.max as real
  {
    assert Column(h, f)[i] == Reading(h[i], f);
    assert Reading(h[i], f).value in Present(Column(h, f));
  }

  /** The total of a field's readings over a history, counting absent readings as nothing. */
  function ReadingTotal(h: seq<Sample>, f: Field): int {
    if h == [] then 0
    else (if Reading(h[0], f).Some? then Reading(h[0], f).value else 0) + ReadingTotal(h[1..], f)
  }

  /** How many samples of a history carry the field. */
  function ReadingCount(h: seq<Sample>, f: Field): nat {
    if h == [] then 0 else (if Reading(h[0], f).Some? then 1 else 0) + ReadingCount(h[1..], f)
  }

  /** The present readings of a column add up to the field's total and are as many as the samples carrying it. */
  lemma {:induction false} PresentColumnTotals(h: seq<Sample>, f: Field)
    ensures Sum(Present(Column(h, f))) == ReadingTotal(h, f)
    ensures |Present(Column(h, f))| == ReadingCount(h, f)
  {
    if h != [] {
      var c := Column(h, f);
      assert c[1..] == Column(h[1..], f);
      PresentColumnTotals(h[1..], f);
      var rest := Present(Column(h[1..], f));
      if c[0].Some? {
        assert Present(c) == [c[0].value] + rest;
        assert ([c[0].value] + rest)[1..] == rest;
      } else {
        assert Present(c) == rest;
      }
    }
  }

  /**
   * The mean a summary reports for a field is the total of that field's
   * readings divided by the number of samples that carried it: absent
   * readings neither add to the total nor to the count.
   */
  lemma AverageIsMeanOfReadings(h: seq<Sample>, f: Field)
    requires Summarize(h).Some? && FieldStats(Summarize(h).value, f).Some?
    ensures ReadingCount(h, f) > 0
    ensures FieldStats(Summarize(h).value, f).value.avg == ReadingTotal(h, f) as real / ReadingCount(h, f) as real
  {
    PresentColumnTotals(h, f);
  }

  /** The minimum and maximum of a field are readings some sample actually carried. */
  lemma StatsAreReadings(h: seq<Sample>, f: Field)
    requires Summarize(h).Some? && FieldStats(Summarize(h).value, f).Some?
    ensures var s := FieldStats(Summarize(h).value, f).value;
      (exists i :: 0 <= i < |h| && Reading(h[i], f) == Some(s.min))
      && (exists j :: 0 <= j < |h| && Reading(h[j], f) == Some(s.max))
  {
    var s := FieldStats(Summarize(h).value, f).value;
    var c := Column(h, f);
    assert StatsOf(Present(c)) == Some(s) by {
      if f == Temp {
        assert FieldStats(Summarize(h).value, f) == StatsOf(Present(Column(h, Temp)));
      } else {
        assert FieldStats(Summarize(h).value, f) == StatsOf(Present(Column(h, Util)));
      }
    }
    var i := PresentAt(c, s.min);
    var j := PresentAt(c, s.max);
    assert Reading(h[i], f) == Some(s.min);
    assert Reading(h[j], f) == Some(s.max);
  }

  /** A present value sits at some position of its column. */
  lemma PresentAt(c: seq<Option<int>>, v: int) returns (i: int)
    requires v in Present(c)
    ensures 0 <= i < |c| && c[i] == Some(v)
  {
    assert Some(v) in c;
    i :| 0 <= i < |c| && c[i] == Some(v);
  }
}
