// The numeric aggregates over collected `(value, total_ios)` pairs
// (`FioJsonFile._avgMetric`, `FioJsonFile._sumMetric`) and the public
// properties `avgClat`, `avgLat`, `iops` and `mibps` built on them.
// Arithmetic is on reals: the model does not round like IEEE doubles.

module Aggregates {
  import opened Json
  import opened Metrics

  /** The plain sum of the values; a value that is not a number raises TypeError. */
  function SumValues(ss: seq<Sample>): (r: Result<real>)
    ensures r.Ok? <==> forall i :: 0 <= i < |ss| ==> Num(ss[i].value).Some?
    ensures r.Err? ==> r.error == TypeError
  {
    if |ss| == 0 then Ok(0.0)
    else
      var before :- SumValues(ss[..|ss| - 1]);
      match Num(ss[|ss| - 1].value)
      case None => Err(TypeError)
      case Some(v) => Ok(before + v)
  }

  /** A pair as numbers `(value, total_ios)`; None when one of them is not
      a number (the product or the sum then raises TypeError). */
  function Pair(s: Sample): Option<(real, real)>
  {
    if Num(s.value).None? || Num(s.ios).None? then None
    else Some((Num(s.value).value, Num(s.ios).value))
  }

  /** The pairs as numbers, or None when one of them is not numeric. */
  function Weighed(ss: seq<Sample>): (r: Option<seq<(real, real)>>)
    ensures r.Some? <==> forall i :: 0 <= i < |ss| ==> Num(ss[i].value).Some? && Num(ss[i].ios).Some?
  {
    if |ss| == 0 then Some([])
    else
      match Weighed(ss[..|ss| - 1])
      case None => None
      case Some(before) =>
        match Pair(ss[|ss| - 1])
        case None => None
        case Some(p) => Some(before + [p])
  }

  /** The weighed pairs are the pairs, one for one, as numbers. */
  lemma {:induction false} WeighedPointwise(ss: seq<Sample>)
    requires Weighed(ss).Some?
    ensures |Weighed(ss).value| == |ss|
    ensures forall i :: 0 <= i < |ss| ==> Weighed(ss).value[i] == (Num(ss[i].value).value, Num(ss[i].ios).value)
  {
    if |ss| > 0 {
      var init := ss[..|ss| - 1];
      WeighedPointwise(init);
      assert forall i :: 0 <= i < |init| ==> init[i] == ss[i];
    }
  }

  /** `result[0] * result[1]`: a pair's value weighed by its IOs. */
  function Weight(p: (real, real)): real
  {
    p.0 * p.1
  }

  /** `(sum of value * ios, sum of ios)` over numeric pairs. */
  function Totals(ps: seq<(real, real)>): (real, real)
  {
    if |ps| == 0 then (0.0, 0.0)
    else
      var t := Totals(ps[..|ps| - 1]);
      var p := ps[|ps| - 1];
      (t.0 + Weight(p), t.1 + p.1)
  }

  /** The IO-weighted mean, 0.0 when no IOs were counted. */
  function Mean(ss: seq<Sample>): (r: Result<real>)
    ensures r.Ok? <==> Weighed(ss).Some?
    ensures r.Err? ==> r.error == TypeError
  {
    match Weighed(ss)
    case None => Err(TypeError)
    case Some(ps) =>
      var t := Totals(ps);
      Ok(if t.1 > 0.0 then t.0 / t.1 else 0.0)
  }

  lemma {:induction false} SumValuesAppend(a: seq<Sample>, b: seq<Sample>)
    requires SumValues(a).Ok? && SumValues(b).Ok?
    ensures SumValues(a + b) == Ok(SumValues(a).value + SumValues(b).value)
    decreases |b|
  {
    if |b| == 0 {
      assert a + b == a;
    } else {
      var ab := a + b;
      assert ab[..|ab| - 1] == a + b[..|b| - 1];
      assert ab[|ab| - 1] == b[|b| - 1];
      assert forall i :: 0 <= i < |b| - 1 ==> b[..|b| - 1][i] == b[i];
      SumValuesAppend(a, b[..|b| - 1]);
    }
  }

  /** The weighted mean lies between the smallest and the largest value of
      the pairs, when no pair has negative IOs and some pair has IOs. */
  lemma MeanWithinBounds(ss: seq<Sample>, lo: real, hi: real)
    requires Mean(ss).Ok?
    requires forall i :: 0 <= i < |ss| ==> Num(ss[i].ios).value >= 0.0 && lo <= Num(ss[i].value).value <= hi
    requires exists i :: 0 <= i < |ss| && Num(ss[i].ios).value > 0.0
    ensures lo <= Mean(ss).value <= hi
  {
    var ps := Weighed(ss).value;
    var k := WeighedBounds(ss, lo, hi);
    TotalsBounds(ps, lo, hi);
    PositiveWeight(ps, k);
    RatioBounds(Totals(ps), lo, hi);
  }

  /** The weighed pairs keep the bounds of the pairs, and the pair with IOs. */
  lemma WeighedBounds(ss: seq<Sample>, lo: real, hi: real) returns (k: nat)
    requires Weighed(ss).Some?
    requires forall i :: 0 <= i < |ss| ==> Num(ss[i].ios).value >= 0.0 && lo <= Num(ss[i].value).value <= hi
    requires exists i :: 0 <= i < |ss| && Num(ss[i].ios).value > 0.0
    ensures var ps := Weighed(ss).value;
      k < |ps| && ps[k].1 > 0.0 && forall i :: 0 <= i < |ps| ==> ps[i].1 >= 0.0 && lo <= ps[i].0 <= hi
  {
    WeighedPointwise(ss);
    k :| 0 <= k < |ss| && Num(ss[k].ios).value > 0.0;
  }

  /** Totals with a positive weight whose ratio is bounded give a bounded ratio. */
  lemma RatioBounds(t: (real, real), lo: real, hi: real)
    requires Within(t, lo, hi) && t.1 > 0.0
    ensures lo <= t.0 / t.1 <= hi
  {
    DivBounds(t.0, t.1, lo, hi);
  }

  /** Non-negative weights with one positive weight have a positive total. */
  lemma {:induction false} PositiveWeight(ps: seq<(real, real)>, k: nat)
    requires k < |ps| && ps[k].1 > 0.0
    requires forall i :: 0 <= i < |ps| ==> ps[i].1 >= 0.0
    ensures Totals(ps).1 > 0.0
  {
    var init := ps[..|ps| - 1];
    assert forall i :: 0 <= i < |init| ==> init[i] == ps[i];
    if k < |ps| - 1 {
      PositiveWeight(init, k);
    } else {
      NonNegativeWeight(init);
    }
  }

  lemma {:induction false} NonNegativeWeight(ps: seq<(real, real)>)
    requires forall i :: 0 <= i < |ps| ==> ps[i].1 >= 0.0
    ensures Totals(ps).1 >= 0.0
  {
    if |ps| > 0 {
      var init := ps[..|ps| - 1];
      assert forall i :: 0 <= i < |init| ==> init[i] == ps[i];
      NonNegativeWeight(init);
    }
  }

  lemma DivBounds(num: real, den: real, lo: real, hi: real)
    requires den > 0.0 && lo * den <= num <= hi * den
    ensures lo <= num / den <= hi
  {
  }

  /** Totals `(sum of value * ios, sum of ios)` whose ratio lies in `[lo, hi]`. */
  predicate Within(t: (real, real), lo: real, hi: real)
  {
    t.1 >= 0.0 && lo * t.1 <= t.0 <= hi * t.1
  }

  /** One more weighted pair keeps the totals between the bounds. */
  lemma StepBounds(t: (real, real), v: real, w: real, lo: real, hi: real)
    requires Within(t, lo, hi)
    requires w >= 0.0 && lo <= v <= hi
    ensures Within((t.0 + v * w, t.1 + w), lo, hi)
  {
    assert (v - lo) * w >= 0.0;
    assert (hi - v) * w >= 0.0;
    assert lo * (t.1 + w) == lo * t.1 + lo * w;
    assert hi * (t.1 + w) == hi * t.1 + hi * w;
  }

  lemma {:induction false} TotalsBounds(ps: seq<(real, real)>, lo: real, hi: real)
    requires forall i :: 0 <= i < |ps| ==> ps[i].1 >= 0.0 && lo <= ps[i].0 <= hi
    ensures Within(Totals(ps), lo, hi)
  {
    if |ps| > 0 {
      var init := ps[..|ps| - 1];
      assert forall i :: 0 <= i < |init| ==> init[i] == ps[i];
      TotalsBounds(init, lo, hi);
      StepBounds(Totals(init), ps[|ps| - 1].0, ps[|ps| - 1].1, lo, hi);
    }
  }

  /** When every pair reports zero IOs the mean is 0.0, not an error. */
  lemma ZeroIosMeanZero(ss: seq<Sample>)
    requires forall i :: 0 <= i < |ss| ==> Num(ss[i].value).Some? && Num(ss[i].ios) == Some(0.0)
    ensures Mean(ss) == Ok(0.0)
  {
    WeighedPointwise(ss);
    ZeroWeightTotals(Weighed(ss).value);
  }

  lemma {:induction false} ZeroWeightTotals(ps: seq<(real, real)>)
    requires forall i :: 0 <= i < |ps| ==> ps[i].1 == 0.0
    ensures Totals(ps).1 == 0.0
  {
    if |ps| > 0 {
      var init := ps[..|ps| - 1];
      assert forall i :: 0 <= i < |init| ==> init[i] == ps[i];
      ZeroWeightTotals(init);
    }
  }

  /** One more pair is one more term of the sum. */
  lemma SumValuesSnoc(ss: seq<Sample>, s: Sample)
    ensures SumValues(ss + [s]) ==
      var before :- SumValues(ss);
      match Num(s.value)
      case None => Err(TypeError)
      case Some(v) => Ok(before + v)
  {
    assert (ss + [s])[..|ss|] == ss;
  }

  /** One more numeric pair is one more term of both totals. */
  lemma TotalsSnoc(ps: seq<(real, real)>, v: real, w: real)
    ensures Totals(ps + [(v, w)]).0 == Totals(ps).0 + v * w
    ensures Totals(ps + [(v, w)]).1 == Totals(ps).1 + w
  {
    var qs := ps + [(v, w)];
    assert qs[..|qs| - 1] == ps;
    var q := qs[|qs| - 1];
    assert q.0 * q.1 == v * w;
  }

  /** Means of 100 over 10 IOs and 200 over 30 IOs weigh to 175. */
  lemma MeanExample()
    ensures Mean([Sample(Int(100), Int(10)), Sample(Int(200), Int(30))]) == Ok(175.0)
  {
    var ss := [Sample(Int(100), Int(10)), Sample(Int(200), Int(30))];
    var ps := [(100.0, 10.0), (200.0, 30.0)];
    var none: seq<(real, real)> := [];
    assert Weighed(ss).Some?;
    var w := Weighed(ss).value;
    WeighedPointwise(ss);
    assert w[0] == ps[0] && w[1] == ps[1];
    assert w == ps;
    TotalsSnoc(none, 100.0, 10.0);
    assert none + [ps[0]] == [ps[0]];
    TotalsSnoc([ps[0]], 200.0, 30.0);
    assert [ps[0]] + [ps[1]] == ps;
    assert Totals(ps) == (7000.0, 40.0);
  }

  /** IOPS of 1000, 2000 and 500 sum to 3500. */
  lemma SumExample()
    ensures SumValues([Sample(Int(1000), Int(1)), Sample(Int(2000), Int(1)), Sample(Int(500), Int(1))]) == Ok(3500.0)
  {
    var a, b, c := Sample(Int(1000), Int(1)), Sample(Int(2000), Int(1)), Sample(Int(500), Int(1));
    var none: seq<Sample> := [];
    SumValuesSnoc(none, a);
    assert none + [a] == [a];
    SumValuesSnoc([a], b);
    assert [a] + [b] == [a, b];
    SumValuesSnoc([a, b], c);
    assert [a, b] + [c] == [a, b, c];
  }

  /** One more pair is one more weighed pair, or none when it is not numeric. */
  lemma WeighedSnoc(ss: seq<Sample>, s: Sample)
    ensures Weighed(ss + [s]) ==
      if Weighed(ss).None? || Pair(s).None? then None else Some(Weighed(ss).value + [Pair(s).value])
  {
    assert (ss + [s])[..|ss|] == ss;
  }

  // ---------------------------------------------------------------------
  // The aggregates.

  /** The value `_avgMetric(metric, dirFilter)` returns, or the error it raises. */
  function AvgOf(data: Fields, metric: string, dirFilter: Option<string>): Result<real>
  {
    var ss :- Collect(data, metric, Some("mean"), dirFilter);
    Mean(ss)
  }

  /** The weighted mean of `ss`, accumulated pair by pair as `_avgMetric` does. */
  method WeightedMean(ss: seq<Sample>) returns (r: Result<real>)
    ensures r == Mean(ss)
  {
    var totalIos := 0.0;
    var sumAvgs := 0.0;
    ghost var ps: seq<(real, real)> := [];
    for i := 0 to |ss|
      invariant Weighed(ss[..i]) == Some(ps)
      invariant Totals(ps) == (sumAvgs, totalIos)
    {
      var result := Pair(ss[i]);
      if result.None? {
        WeighedFails(ss, i);
        return Err(TypeError);
      }
      WeighedStep(ss, i, ps);
      TotalsStep(ps, result.value, sumAvgs, totalIos);
      ps := ps + [result.value];
      sumAvgs := sumAvgs + Weight(result.value);
      totalIos := totalIos + result.value.1;
    }
    assert ss[..|ss|] == ss;
    MeanOfTotals(ss, ps);
    var scaledAvgs := 0.0;
    if totalIos > 0.0 {
      scaledAvgs := sumAvgs / totalIos;
    }
    return Ok(scaledAvgs);
  }

  /** Totals `(s, t)` with one more pair `p` are `(s + Weight(p), t + p.1)`. */
  lemma TotalsStep(ps: seq<(real, real)>, p: (real, real), s: real, t: real)
    requires Totals(ps) == (s, t)
    ensures Totals(ps + [p]) == (s + Weight(p), t + p.1)
  {
    assert (ps + [p])[..|ps|] == ps;
  }

  /** The mean is the ratio of the totals of the weighed pairs. */
  lemma MeanOfTotals(ss: seq<Sample>, ps: seq<(real, real)>)
    requires Weighed(ss) == Some(ps)
    ensures Mean(ss) == Ok(if Totals(ps).1 > 0.0 then Totals(ps).0 / Totals(ps).1 else 0.0)
  {
  }

  /** A non-numeric pair anywhere makes the weighing fail. */
  lemma WeighedFails(ss: seq<Sample>, i: nat)
    requires i < |ss| && Pair(ss[i]).None?
    ensures Weighed(ss).None?
  {
  }

  /** One numeric pair more is one more weighed pair. */
  lemma WeighedStep(ss: seq<Sample>, i: nat, ps: seq<(real, real)>)
    requires i < |ss| && Weighed(ss[..i]) == Some(ps)
    requires Pair(ss[i]).Some?
    ensures Weighed(ss[..i + 1]) == Some(ps + [Pair(ss[i]).value])
  {
    assert ss[..i + 1] == ss[..i] + [ss[i]];
    WeighedSnoc(ss[..i], ss[i]);
  }

  /** `_avgMetric`: the IO-weighted mean of the metric's `mean` submetric. */
  method AvgMetric(data: Fields, metric: string, dirFilter: Option<string>) returns (r: Result<real>)
    ensures r == AvgOf(data, metric, dirFilter)
  {
    var results := MetricResultsList(data, metric, Some("mean"), dirFilter);
    if results.Err? {
      return Err(results.error);
    }
    r := WeightedMean(results.value);
  }

  /** The sum `_sumMetric(metric, dirFilter)` computes: its second argument
      lands in the submetric position of `_getMetricResultsList`, so the
      filter is used as a submetric and no direction is filtered out. */
  function SumMetricAsWritten(data: Fields, metric: string, dirFilter: Option<string>): Result<real>
  {
    var ss :- Collect(data, metric, dirFilter, None);
    SumValues(ss)
  }

  /** The plain sum of the values of `ss`, accumulated value by value. */
  method SumResults(ss: seq<Sample>) returns (r: Result<real>)
    ensures r == SumValues(ss)
  {
    var sumResults := 0.0;
    for i := 0 to |ss|
      invariant SumValues(ss[..i]) == Ok(sumResults)
    {
      assert ss[..i + 1] == ss[..i] + [ss[i]];
      SumValuesSnoc(ss[..i], ss[i]);
      var v := Num(ss[i].value);
      if v.None? {
        assert SumValues(ss[..i + 1]).Err?;
        assert forall k :: 0 <= k <= i ==> ss[..i + 1][k] == ss[k];
        return Err(TypeError);
      }
      sumResults := sumResults + v.value;
    }
    assert ss[..|ss|] == ss;
    return Ok(sumResults);
  }

  /** `_sumMetric` as written. */
  method SumMetric(data: Fields, metric: string, dirFilter: Option<string>) returns (r: Result<real>)
    ensures r == SumMetricAsWritten(data, metric, dirFilter)
  {
    var results := MetricResultsList(data, metric, dirFilter, None);
    if results.Err? {
      return Err(results.error);
    }
    r := SumResults(results.value);
  }

  /** The sum the authors evidently meant: the filter selects directions. */
  function FilteredSum(data: Fields, metric: string, dirFilter: Option<string>): Result<real>
  {
    var ss :- Collect(data, metric, None, dirFilter);
    SumValues(ss)
  }

  /** `_sumMetric` with its filter passed as the direction filter. */
  method SumMetricFiltered(data: Fields, metric: string, dirFilter: Option<string>) returns (r: Result<real>)
    ensures r == FilteredSum(data, metric, dirFilter)
  {
    var results := MetricResultsList(data, metric, None, dirFilter);
    if results.Err? {
      return Err(results.error);
    }
    r := SumResults(results.value);
  }

  /** Without a filter both sums agree: the public `iops` and `mibps` are
      not affected by the misplaced argument. */
  lemma UnfilteredSumsAgree(data: Fields, metric: string)
    ensures SumMetricAsWritten(data, metric, None) == FilteredSum(data, metric, None)
  {
  }

  /** The as-written sum with filter "read" on a job that has only a read
      direction with a numeric `iops`: the filter becomes a lookup into the
      number and raises TypeError, while the intended sum is that `iops`. */
  lemma SumFilterMisplaced(data: Fields, job: Value, name: string, x: real, n: int)
    requires !IsAllClients(Str(name))
    requires job == Object([("jobname", Str(name)), ("read", Object([("iops", Float(x)), ("total_ios", Int(n))]))])
    requires data == [("jobs", Array([job]))]
    ensures SumMetricAsWritten(data, "iops", Some("read")) == Err(TypeError)
    ensures FilteredSum(data, "iops", Some("read")) == Ok(x)
  {
    ReadOnlyJob(data, job, name, x, n);
    AsWrittenReadFilter(job, x, n);
    AllJobsSingle(job, JobStep(Directions, "iops", Some("read"), None));
    IntendedReadFilter(job, x, n);
    AllJobsSingle(job, JobStep(Directions, "iops", None, Some("read")));
    var one := [Sample(Float(x), Int(n))];
    var none: seq<Sample> := [];
    SumValuesSnoc(none, one[0]);
    assert none + [one[0]] == one;
  }

  /** The lookups the example job answers. */
  lemma ReadOnlyJob(data: Fields, job: Value, name: string, x: real, n: int)
    requires !IsAllClients(Str(name))
    requires job == Object([("jobname", Str(name)), ("read", Object([("iops", Float(x)), ("total_ios", Int(n))]))])
    requires data == [("jobs", Array([job]))]
    ensures JobList(data) == Ok([job])
    ensures Get(job, "jobname") == Ok(Str(name))
    ensures Get(job, "read") == Ok(Object([("iops", Float(x)), ("total_ios", Int(n))]))
    ensures !Has(job, "mixed") && !Has(job, "write") && !Has(job, "trim")
  {
    assert Keys(data)[0] == "jobs";
    assert Keys(job.fields) == ["jobname", "read"];
  }

  /** With the filter in the submetric position, the read direction's
      `iops` number is indexed by "read". */
  lemma AsWrittenReadFilter(job: Value, x: real, n: int)
    requires Get(job, "jobname").Ok? && Get(job, "jobname").value.Str? && !IsAllClients(Get(job, "jobname").value)
    requires Get(job, "read") == Ok(Object([("iops", Float(x)), ("total_ios", Int(n))]))
    requires !Has(job, "mixed")
    ensures JobSamples(job, Directions, "iops", Some("read"), None) == Err(TypeError)
  {
    var dir := Object([("iops", Float(x)), ("total_ios", Int(n))]);
    assert Keys(dir.fields)[0] == "iops";
    assert Get(dir, "iops") == Ok(Float(x));
    assert MetricAndIOs(dir, "iops", Some("read")) == Err(TypeError);
    FourSteps(job, "iops", Some("read"), None);
  }

  /** With the filter in the direction position, only the read direction's
      pair is collected. */
  lemma IntendedReadFilter(job: Value, x: real, n: int)
    requires Get(job, "jobname").Ok? && Get(job, "jobname").value.Str? && !IsAllClients(Get(job, "jobname").value)
    requires Get(job, "read") == Ok(Object([("iops", Float(x)), ("total_ios", Int(n))]))
    ensures JobSamples(job, Directions, "iops", None, Some("read")) == Ok([Sample(Float(x), Int(n))])
  {
    var dir := Object([("iops", Float(x)), ("total_ios", Int(n))]);
    assert Keys(dir.fields) == ["iops", "total_ios"];
    assert MetricAndIOs(dir, "iops", None) == Ok(Sample(Float(x), Int(n)));
    FourSteps(job, "iops", None, Some("read"));
    var one := [Sample(Float(x), Int(n))];
    assert DirectionSample(job, "read", "iops", None, Some("read")) == Ok(one);
    assert [] + one + [] + [] == one;
  }

  /** A list of one job collects that job's pairs. */
  lemma AllJobsSingle(job: Value, step: Value -> Result<seq<Sample>>)
    ensures AllJobs([job], step) == match step(job) case Ok(s) => Ok([] + s) case Err(e) => Err(e)
  {
    assert [job][..0] == [];
  }

  // ---------------------------------------------------------------------
  // The intended filter partitions the total by direction.

  /** Collected pairs that are all numeric. */
  predicate Summable(r: Result<seq<Sample>>)
  {
    r.Ok? && SumValues(r.value).Ok?
  }

  /** The sum of summable pairs. */
  function Total(r: Result<seq<Sample>>): real
    requires Summable(r)
  {
    SumValues(r.value).value
  }

  /** The pieces of a summable concatenation are summable and add up. */
  lemma SumValuesSplit(a: seq<Sample>, b: seq<Sample>)
    requires SumValues(a + b).Ok?
    ensures SumValues(a).Ok? && SumValues(b).Ok?
    ensures SumValues(a + b).value == SumValues(a).value + SumValues(b).value
  {
    assert forall i :: 0 <= i < |a| ==> a[i] == (a + b)[i];
    assert forall i :: 0 <= i < |b| ==> b[i] == (a + b)[|a| + i];
    SumValuesAppend(a, b);
  }

  /** The directions are distinct. */
  lemma DirectionsDistinct()
    ensures forall i, j :: 0 <= i < j < |Directions| ==> Directions[i] != Directions[j]
    ensures Directions[0] == "mixed" && Directions[1] == "read" && Directions[2] == "write" && Directions[3] == "trim"
  {
  }

  /** One job: its unfiltered pairs are the pairs of the four filters, and
      their sums add up. */
  lemma JobDirectionSplit(job: Value, metric: string)
    requires Summable(JobSamples(job, Directions, metric, None, None))
    ensures Summable(JobSamples(job, Directions, metric, None, Some("mixed")))
    ensures Summable(JobSamples(job, Directions, metric, None, Some("read")))
    ensures Summable(JobSamples(job, Directions, metric, None, Some("write")))
    ensures Summable(JobSamples(job, Directions, metric, None, Some("trim")))
    ensures Total(JobSamples(job, Directions, metric, None, None)) ==
      Total(JobSamples(job, Directions, metric, None, Some("mixed"))) +
      Total(JobSamples(job, Directions, metric, None, Some("read"))) +
      Total(JobSamples(job, Directions, metric, None, Some("write"))) +
      Total(JobSamples(job, Directions, metric, None, Some("trim")))
  {
    var name := Get(job, "jobname").value;
    if !IsAllClients(name) {
      DirectionsDistinct();
      FourSteps(job, metric, None, None);
      FilterKeepsDirection(job, Directions, "mixed", metric, None);
      FilterKeepsDirection(job, Directions, "read", metric, None);
      FilterKeepsDirection(job, Directions, "write", metric, None);
      FilterKeepsDirection(job, Directions, "trim", metric, None);
      var m := DirectionSample(job, "mixed", metric, None, None).value;
      var r := DirectionSample(job, "read", metric, None, None).value;
      var w := DirectionSample(job, "write", metric, None, None).value;
      var t := DirectionSample(job, "trim", metric, None, None).value;
      SumValuesSplit(m + r + w, t);
      SumValuesSplit(m + r, w);
      SumValuesSplit(m, r);
    }
  }

  /** The four per-direction sums over a list of jobs. */
  lemma {:induction false} JobsDirectionSplit(jobs: seq<Value>, metric: string)
    requires Summable(AllJobs(jobs, JobStep(Directions, metric, None, None)))
    ensures Summable(AllJobs(jobs, JobStep(Directions, metric, None, Some("mixed"))))
    ensures Summable(AllJobs(jobs, JobStep(Directions, metric, None, Some("read"))))
    ensures Summable(AllJobs(jobs, JobStep(Directions, metric, None, Some("write"))))
    ensures Summable(AllJobs(jobs, JobStep(Directions, metric, None, Some("trim"))))
    ensures Total(AllJobs(jobs, JobStep(Directions, metric, None, None))) ==
      Total(AllJobs(jobs, JobStep(Directions, metric, None, Some("mixed")))) +
      Total(AllJobs(jobs, JobStep(Directions, metric, None, Some("read")))) +
      Total(AllJobs(jobs, JobStep(Directions, metric, None, Some("write")))) +
      Total(AllJobs(jobs, JobStep(Directions, metric, None, Some("trim"))))
  {
    if |jobs| > 0 {
      var init, last := jobs[..|jobs| - 1], jobs[|jobs| - 1];
      var all := JobStep(Directions, metric, None, None);
      var a, b := AllJobs(init, all).value, all(last).value;
      SumValuesSplit(a, b);
      JobsDirectionSplit(init, metric);
      JobDirectionSplit(last, metric);
      DirectionStep(init, last, metric, "mixed");
      DirectionStep(init, last, metric, "read");
      DirectionStep(init, last, metric, "write");
      DirectionStep(init, last, metric, "trim");
    }
  }

  /** One more job adds its own filtered sum to a filtered total. */
  lemma DirectionStep(init: seq<Value>, last: Value, metric: string, d: string)
    requires Summable(AllJobs(init, JobStep(Directions, metric, None, Some(d))))
    requires Summable(JobSamples(last, Directions, metric, None, Some(d)))
    ensures Summable(AllJobs(init + [last], JobStep(Directions, metric, None, Some(d))))
    ensures Total(AllJobs(init + [last], JobStep(Directions, metric, None, Some(d)))) ==
      Total(AllJobs(init, JobStep(Directions, metric, None, Some(d)))) +
      Total(JobSamples(last, Directions, metric, None, Some(d)))
  {
    var jobs := init + [last];
    assert jobs[..|jobs| - 1] == init;
    SumValuesAppend(AllJobs(init, JobStep(Directions, metric, None, Some(d))).value, JobSamples(last, Directions, metric, None, Some(d)).value);
  }

  /** With the filter applied as intended, the total over all directions is
      the sum of the four per-direction totals. */
  lemma FilteredSumPartition(data: Fields, metric: string)
    requires FilteredSum(data, metric, None).Ok?
    ensures FilteredSum(data, metric, Some("mixed")).Ok? && FilteredSum(data, metric, Some("read")).Ok?
    ensures FilteredSum(data, metric, Some("write")).Ok? && FilteredSum(data, metric, Some("trim")).Ok?
    ensures FilteredSum(data, metric, None).value ==
      FilteredSum(data, metric, Some("mixed")).value + FilteredSum(data, metric, Some("read")).value +
      FilteredSum(data, metric, Some("write")).value + FilteredSum(data, metric, Some("trim")).value
  {
    var jobs := JobList(data).value;
    JobsDirectionSplit(jobs, metric);
  }

  // ---------------------------------------------------------------------
  // The public metric properties.

  /** A result divided by a unit factor; errors pass through. */
  function Scale(r: Result<real>, divisor: real): (s: Result<real>)
    requires divisor > 0.0
    ensures s.Ok? <==> r.Ok?
    ensures s.Ok? ==> s.value * divisor == r.value
    ensures s.Err? ==> s.error == r.error
  {
    match r
    case Err(e) => Err(e)
    case Ok(v) => Ok(v / divisor)
  }

  /** `avgClat` (`metric` is `clat_ns`) and `avgLat` (`metric` is `lat_ns`):
      the mean of a latency metric over all jobs, nanoseconds to milliseconds. */
  method AvgMillis(data: Fields, metric: string) returns (r: Result<real>)
    ensures r == Scale(AvgOf(data, metric, None), 1000000.0)
  {
    var avg := AvgMetric(data, metric, None);
    r := Scale(avg, 1000000.0);
  }

  /** `iops`: total IOPS over all jobs and directions. */
  method Iops(data: Fields) returns (r: Result<real>)
    ensures r == SumMetricAsWritten(data, "iops", None)
    ensures r == FilteredSum(data, "iops", None)
  {
    r := SumMetric(data, "iops", None);
    UnfilteredSumsAgree(data, "iops");
  }

  /** `mibps`: total bandwidth over all jobs and directions, bytes/s to MiB/s. */
  method MiBps(data: Fields) returns (r: Result<real>)
    ensures r == Scale(SumMetricAsWritten(data, "bw_bytes", None), 1048576.0)
    ensures r == Scale(FilteredSum(data, "bw_bytes", None), 1048576.0)
  {
    var sum := SumMetric(data, "bw_bytes", None);
    UnfilteredSumsAgree(data, "bw_bytes");
    r := Scale(sum, 1048576.0);
  }
}
