// Metric collection across jobs and I/O directions
// (`FioJsonFile._getMetricAndIOs` and `FioJsonFile._getMetricResultsList`):
// the `(value, total_ios)` pairs that the averages and sums are built from.

module Metrics {
  import opened Strings
  import opened Json

  /** One collected pair `(value, total_ios)`. */
  datatype Sample = Sample(value: Value, ios: Value)

  /** Python truthiness of the `submetric` argument: `None` and `""` are false. */
  predicate Truthy(submetric: Option<string>)
  {
    submetric.Some? && submetric.value != ""
  }

  /** `(dirDict[metric][submetric], dirDict['total_ios'])`, or without the
      second index when `submetric` is falsy; lookups in that order. */
  function MetricAndIOs(dirDict: Value, metric: string, submetric: Option<string>): (r: Result<Sample>)
    ensures r.Ok? <==>
      && Has(dirDict, metric)
      && (Truthy(submetric) ==> Has(Get(dirDict, metric).value, submetric.value))
      && Has(dirDict, "total_ios")
    ensures r.Ok? ==> r.value.ios == Get(dirDict, "total_ios").value
    ensures r.Ok? && !Truthy(submetric) ==> r.value.value == Get(dirDict, metric).value
    ensures r.Ok? && Truthy(submetric) ==> r.value.value == Get(Get(dirDict, metric).value, submetric.value).value
    ensures !dirDict.Object? ==> r == Err(TypeError)
  {
    var m :- Get(dirDict, metric);
    var v :- if Truthy(submetric) then Get(m, submetric.value) else Ok(m);
    var ios :- Get(dirDict, "total_ios");
    Ok(Sample(v, ios))
  }

  /** The direction filter: `dirFilter == None or dirFilter == d`. */
  predicate Selected(dirFilter: Option<string>, d: string)
  {
    dirFilter.None? || dirFilter == Some(d)
  }

  /** One `if d in job and <filter>: ret.append(...)` step. */
  function DirectionSample(job: Value, d: string, metric: string, submetric: Option<string>, dirFilter: Option<string>): (r: Result<seq<Sample>>)
    ensures !(Has(job, d) && Selected(dirFilter, d)) ==> r == Ok([])
    ensures Has(job, d) && Selected(dirFilter, d) ==>
      r == match MetricAndIOs(Get(job, d).value, metric, submetric)
           case Ok(s) => Ok([s])
           case Err(e) => Err(e)
  {
    if Has(job, d) && Selected(dirFilter, d) then
      var s :- MetricAndIOs(Get(job, d).value, metric, submetric);
      Ok([s])
    else Ok([])
  }

  /** The `if d in job and <filter>` steps for the directions `dirs`, in order. */
  function DirsSamples(job: Value, dirs: seq<string>, metric: string, submetric: Option<string>, dirFilter: Option<string>): Result<seq<Sample>>
  {
    if |dirs| == 0 then Ok([])
    else
      var before :- DirsSamples(job, dirs[..|dirs| - 1], metric, submetric, dirFilter);
      var last :- DirectionSample(job, dirs[|dirs| - 1], metric, submetric, dirFilter);
      Ok(before + last)
  }

  /** The directions in the order the source tests them. */
  const Directions: seq<string> := ["mixed", "read", "write", "trim"]

  /** The job's name folded to lower case is "all clients". */
  predicate IsAllClients(name: Value)
  {
    name.Str? && Lower(name.s) == "all clients"
  }

  /** The pairs one job contributes: none for the "all clients" aggregate,
      otherwise one per present, selected direction of `dirs`, in order. */
  function JobSamples(job: Value, dirs: seq<string>, metric: string, submetric: Option<string>, dirFilter: Option<string>): Result<seq<Sample>>
  {
    var name :- Get(job, "jobname");
    if !name.Str? then Err(TypeError)
    else if IsAllClients(name) then Ok([])
    else DirsSamples(job, dirs, metric, submetric, dirFilter)
  }

  /** The body of the loop over jobs, as a function of one job. */
  function JobStep(dirs: seq<string>, metric: string, submetric: Option<string>, dirFilter: Option<string>): Value -> Result<seq<Sample>>
  {
    job => JobSamples(job, dirs, metric, submetric, dirFilter)
  }

  /** The pairs of a list of jobs, job after job; the first failing job
      ends the collection. */
  function AllJobs(jobs: seq<Value>, step: Value -> Result<seq<Sample>>): Result<seq<Sample>>
  {
    if |jobs| == 0 then Ok([])
    else
      var before :- AllJobs(jobs[..|jobs| - 1], step);
      var last :- step(jobs[|jobs| - 1]);
      Ok(before + last)
  }

  /** `data['jobs']` when present, else `data['client_stats']`, else no jobs. */
  function JobList(data: Fields): Result<seq<Value>>
  {
    if "jobs" in Keys(data) then Iterate(Find(data, "jobs").value)
    else if "client_stats" in Keys(data) then Iterate(Find(data, "client_stats").value)
    else Ok([])
  }

  /** What `_getMetricResultsList(metric, submetric, dirFilter)` returns. */
  function Collect(data: Fields, metric: string, submetric: Option<string>, dirFilter: Option<string>): Result<seq<Sample>>
  {
    var jobs :- JobList(data);
    AllJobs(jobs, JobStep(Directions, metric, submetric, dirFilter))
  }

  method MetricResultsList(data: Fields, metric: string, submetric: Option<string>, dirFilter: Option<string>)
    returns (r: Result<seq<Sample>>)
    ensures r == Collect(data, metric, submetric, dirFilter)
  {
    var jobsOrErr := JobList(data);
    if jobsOrErr.Err? {
      return Err(jobsOrErr.error);
    }
    var jobs := jobsOrErr.value;
    ghost var step := JobStep(Directions, metric, submetric, dirFilter);
    var ret: seq<Sample> := [];
    for i := 0 to |jobs|
      invariant AllJobs(jobs[..i], step) == Ok(ret)
    {
      AllJobsSnoc(jobs, i, step);
      var js := JobSamples(jobs[i], Directions, metric, submetric, dirFilter);
      assert step(jobs[i]) == js;
      if js.Err? {
        AllJobsErr(jobs, i + 1, step);
        return Err(js.error);
      }
      ret := ret + js.value;
    }
    assert jobs[..|jobs|] == jobs;
    return Ok(ret);
  }

  /** One more job is one more step. */
  lemma AllJobsSnoc(jobs: seq<Value>, i: nat, step: Value -> Result<seq<Sample>>)
    requires i < |jobs|
    ensures AllJobs(jobs[..i + 1], step) ==
      var before :- AllJobs(jobs[..i], step);
      var last :- step(jobs[i]);
      Ok(before + last)
  {
    assert jobs[..i + 1][..i] == jobs[..i];
  }

  /** A failure among the first `k` jobs is the failure of the whole list. */
  lemma {:induction false} AllJobsErr(jobs: seq<Value>, k: nat, step: Value -> Result<seq<Sample>>)
    requires k <= |jobs|
    requires AllJobs(jobs[..k], step).Err?
    ensures AllJobs(jobs, step) == AllJobs(jobs[..k], step)
    decreases |jobs| - k
  {
    if k < |jobs| {
      AllJobsSnoc(jobs, k, step);
      AllJobsErr(jobs, k + 1, step);
    } else {
      assert jobs[..k] == jobs;
    }
  }

  // ---------------------------------------------------------------------
  // What collection promises.

  /** The jobs of a concatenated list contribute their pairs in list order. */
  lemma {:induction false} AllJobsAppend(a: seq<Value>, b: seq<Value>, step: Value -> Result<seq<Sample>>)
    requires AllJobs(a + b, step).Ok?
    ensures AllJobs(a, step).Ok? && AllJobs(b, step).Ok?
    ensures AllJobs(a + b, step).value == AllJobs(a, step).value + AllJobs(b, step).value
    decreases |b|
  {
    if |b| == 0 {
      assert a + b == a;
    } else {
      var ab, init := a + b, b[..|b| - 1];
      assert ab[..|ab| - 1] == a + init;
      assert ab[|ab| - 1] == b[|b| - 1];
      AllJobsAppend(a, init, step);
    }
  }

  /** One more direction is one more step. */
  lemma DirsSnoc(job: Value, dirs: seq<string>, d: string, metric: string, submetric: Option<string>, dirFilter: Option<string>)
    ensures DirsSamples(job, dirs + [d], metric, submetric, dirFilter) ==
      var before :- DirsSamples(job, dirs, metric, submetric, dirFilter);
      var last :- DirectionSample(job, d, metric, submetric, dirFilter);
      Ok(before + last)
  {
    assert (dirs + [d])[..|dirs|] == dirs;
  }

  /** Over the four directions the steps are the source's four `if` blocks:
      mixed, read, write, trim, each appending at most one pair. */
  lemma FourSteps(job: Value, metric: string, submetric: Option<string>, dirFilter: Option<string>)
    ensures DirsSamples(job, Directions, metric, submetric, dirFilter) ==
      var m :- DirectionSample(job, "mixed", metric, submetric, dirFilter);
      var r :- DirectionSample(job, "read", metric, submetric, dirFilter);
      var w :- DirectionSample(job, "write", metric, submetric, dirFilter);
      var t :- DirectionSample(job, "trim", metric, submetric, dirFilter);
      Ok(m + r + w + t)
  {
    var none: seq<string> := [];
    assert Directions == none + ["mixed"] + ["read"] + ["write"] + ["trim"];
    DirsSnoc(job, none, "mixed", metric, submetric, dirFilter);
    DirsSnoc(job, none + ["mixed"], "read", metric, submetric, dirFilter);
    DirsSnoc(job, none + ["mixed"] + ["read"], "write", metric, submetric, dirFilter);
    DirsSnoc(job, none + ["mixed"] + ["read"] + ["write"], "trim", metric, submetric, dirFilter);
    var m := DirectionSample(job, "mixed", metric, submetric, dirFilter);
    if m.Ok? {
      assert [] + m.value == m.value;
    }
  }

  /** The "all clients" aggregate, in any letter case, contributes nothing. */
  lemma AllClientsSkipped(job: Value, dirs: seq<string>, metric: string, submetric: Option<string>, dirFilter: Option<string>)
    requires Get(job, "jobname").Ok? && IsAllClients(Get(job, "jobname").value)
    ensures JobSamples(job, dirs, metric, submetric, dirFilter) == Ok([])
  {
  }

  /** How many directions of `dirs` a job has and the filter lets through. */
  function Present(job: Value, dirs: seq<string>, dirFilter: Option<string>): nat
  {
    if |dirs| == 0 then 0
    else Present(job, dirs[..|dirs| - 1], dirFilter) + (if Has(job, dirs[|dirs| - 1]) && Selected(dirFilter, dirs[|dirs| - 1]) then 1 else 0)
  }

  /** Any other job contributes exactly one pair per direction it has and
      the filter lets through. */
  lemma {:induction false} DirsSampleCount(job: Value, dirs: seq<string>, metric: string, submetric: Option<string>, dirFilter: Option<string>)
    requires DirsSamples(job, dirs, metric, submetric, dirFilter).Ok?
    ensures |DirsSamples(job, dirs, metric, submetric, dirFilter).value| == Present(job, dirs, dirFilter)
  {
    if |dirs| > 0 {
      DirsSampleCount(job, dirs[..|dirs| - 1], metric, submetric, dirFilter);
    }
  }

  /** With `dirFilter == d` only direction `d` is looked at: every other
      direction is skipped without a lookup. */
  lemma {:induction false} FilterKeepsDirection(job: Value, dirs: seq<string>, d: string, metric: string, submetric: Option<string>)
    requires forall i, j :: 0 <= i < j < |dirs| ==> dirs[i] != dirs[j]
    ensures DirsSamples(job, dirs, metric, submetric, Some(d)) ==
      if d in dirs then DirectionSample(job, d, metric, submetric, None) else Ok([])
  {
    if |dirs| > 0 {
      var init, last := dirs[..|dirs| - 1], dirs[|dirs| - 1];
      assert dirs == init + [last];
      FilterKeepsDirection(job, init, d, metric, submetric);
      DirsSnoc(job, init, last, metric, submetric, Some(d));
      var r := DirectionSample(job, d, metric, submetric, None);
      if last == d {
        assert d !in init by {
          forall i | 0 <= i < |init| ensures init[i] != d {
            assert init[i] == dirs[i];
          }
        }
        EmptyThen(r);
      } else {
        assert d in dirs <==> d in init;
        assert DirectionSample(job, last, metric, submetric, Some(d)) == Ok([]);
        ThenEmpty(DirsSamples(job, init, metric, submetric, Some(d)));
      }
    }
  }

  /** Nothing collected, then `r`, is `r`. */
  lemma EmptyThen(r: Result<seq<Sample>>)
    ensures (var before :- Ok([]); var last :- r; Ok(before + last)) == r
  {
    if r.Ok? {
      assert [] + r.value == r.value;
    }
  }

  /** `r`, then nothing collected, is `r`. */
  lemma ThenEmpty(r: Result<seq<Sample>>)
    ensures (var before :- r; var last :- Ok([]); Ok(before + last)) == r
  {
    if r.Ok? {
      assert r.value + [] == r.value;
    }
  }

  /** Without `jobs` and `client_stats` nothing is collected. */
  lemma NoJobsNothingCollected(data: Fields, metric: string, submetric: Option<string>, dirFilter: Option<string>)
    requires "jobs" !in Keys(data) && "client_stats" !in Keys(data)
    ensures Collect(data, metric, submetric, dirFilter) == Ok([])
  {
  }
}
