// `FioJsonFile.normalized`: the fio "normal" report rebuilt from the JSON
// data. The version comes first; then every entry of `jobs` (or, when there
// is no `jobs`, of `client_stats`, each followed by its host name) goes
// through `_normalJobStats`; then `disk_util` is looked up. With neither list
// the report fails with the file's name.

module Normal {
  import opened Json
  import opened Issued
  import opened LatBuckets

  /** What `_normalJobStats` derives from one job, plus the client's host
      name in client mode. */
  datatype JobReport = JobReport(
    job: Fields,
    desc: Option<Value>,
    issued: Counters,
    latency: seq<LatLine>,
    host: Option<Value>)

  datatype Report = Report(version: Value, jobs: seq<JobReport>)

  /** `dJob['time'] = self.data['time']` then `dJob['numjobs'] = '??'`. */
  function Stamp(job: Fields, time: Value): Fields
  {
    Put(Put(job, "time", time), "numjobs", Str("??"))
  }

  /** The stamped job has the run time and the job count placeholder, and
      every other key as before. */
  lemma StampFind(job: Fields, time: Value, k: string)
    ensures Find(Stamp(job, time), "time") == Some(time)
    ensures Find(Stamp(job, time), "numjobs") == Some(Str("??"))
    ensures k != "time" && k != "numjobs" ==> Find(Stamp(job, time), k) == Find(job, k)
  {
    var stamped := Put(job, "time", time);
    PutFind(job, "time", time, k);
    PutFind(stamped, "numjobs", Str("??"), k);
    PutFind(stamped, "numjobs", Str("??"), "time");
  }

  /** `_normalJobStats(out, job)` for a job of the data `data`: the run time
      is read from the data before the job is written to, so a missing
      `time` fails first; a job that is not an object cannot take the
      assignment. The issued counts and the latency lines are read from the
      stamped job. */
  function JobStats(data: Fields, job: Value): (r: Result<JobReport>)
    ensures r.Ok? ==> "time" in Keys(data) && job.Object?
    ensures "time" !in Keys(data) ==> r == Err(KeyError("time"))
    ensures "time" in Keys(data) && !job.Object? ==> r == Err(TypeError)
    ensures r.Ok? ==> r.value.host.None? && r.value.job == Stamp(job.fields, Find(data, "time").value)
  {
    if "time" !in Keys(data) then Err(KeyError("time"))
    else if !job.Object? then Err(TypeError)
    else
      var stamped := Stamp(job.fields, Find(data, "time").value);
      var issued :- Tally(IssuedDirs, ContributionOf(Object(stamped)));
      var latency :- LatLines(stamped, LatScales);
      Ok(JobReport(stamped, Find(stamped, "desc"), issued, latency, None))
  }

  /** One entry of the list: its stats, and in client mode then its
      `hostname`. */
  function JobStep(data: Fields, clients: bool): Value -> Result<JobReport>
  {
    job =>
      var report :- JobStats(data, job);
      if clients then
        var host :- Get(job, "hostname");
        Ok(report.(host := Some(host)))
      else Ok(report)
  }

  /** The reports of the list's entries, in order; the first failure is the error. */
  function Each(jobs: seq<Value>, step: Value -> Result<JobReport>): (r: Result<seq<JobReport>>)
    decreases |jobs|
  {
    if |jobs| == 0 then Ok([])
    else
      var n := |jobs| - 1;
      var before :- Each(jobs[..n], step);
      var last :- step(jobs[n]);
      Ok(before + [last])
  }

  /** A list that succeeds has one report per entry, each the entry's own. */
  lemma {:induction false} EachOnePerJob(jobs: seq<Value>, step: Value -> Result<JobReport>)
    requires Each(jobs, step).Ok?
    ensures |Each(jobs, step).value| == |jobs|
    ensures forall i :: 0 <= i < |jobs| ==> step(jobs[i]) == Ok(Each(jobs, step).value[i])
    decreases |jobs|
  {
    if |jobs| > 0 {
      var n := |jobs| - 1;
      EachOnePerJob(jobs[..n], step);
      forall i | 0 <= i < n ensures jobs[i] == jobs[..n][i] {}
    }
  }

  /** A failing list fails with the error of one of its entries. */
  lemma {:induction false} EachError(jobs: seq<Value>, step: Value -> Result<JobReport>)
    requires Each(jobs, step).Err?
    ensures exists i :: 0 <= i < |jobs| && step(jobs[i]) == Err(Each(jobs, step).error)
    decreases |jobs|
  {
    var n := |jobs| - 1;
    if Each(jobs[..n], step).Err? {
      EachError(jobs[..n], step);
      var i :| 0 <= i < n && step(jobs[..n][i]) == Err(Each(jobs[..n], step).error);
      assert jobs[..n][i] == jobs[i];
    }
  }

  lemma EachSnoc(jobs: seq<Value>, step: Value -> Result<JobReport>, i: nat)
    requires i < |jobs|
    ensures Each(jobs[..i + 1], step) ==
      var before :- Each(jobs[..i], step);
      var last :- step(jobs[i]);
      Ok(before + [last])
  {
    assert jobs[..i + 1][..i] == jobs[..i];
  }

  lemma {:induction false} EachErr(jobs: seq<Value>, step: Value -> Result<JobReport>, k: nat)
    requires k <= |jobs| && Each(jobs[..k], step).Err?
    ensures Each(jobs, step) == Each(jobs[..k], step)
    decreases |jobs| - k
  {
    if k < |jobs| {
      EachSnoc(jobs, step, k);
      EachErr(jobs, step, k + 1);
    } else {
      assert jobs[..k] == jobs;
    }
  }

  /** `_normalJobStats`: the run time stamped on the job, then the issued
      counts and the latency lines computed by their loops. */
  method NormalJobStats(data: Fields, job: Value) returns (r: Result<JobReport>)
    ensures r == JobStats(data, job)
  {
    if "time" !in Keys(data) {
      return Err(KeyError("time"));
    }
    if !job.Object? {
      return Err(TypeError);
    }
    var stamped := Stamp(job.fields, Find(data, "time").value);
    var issued := IssuedCounts(Object(stamped), IssuedDirs);
    if issued.Err? {
      return Err(issued.error);
    }
    var latency := NormalLatBuckets(stamped, LatScales);
    if latency.Err? {
      return Err(latency.error);
    }
    return Ok(JobReport(stamped, Find(stamped, "desc"), issued.value, latency.value, None));
  }

  /** The reports of one list, then the lookup of `disk_util`. */
  function ListReport(data: Fields, list: Value, clients: bool): Result<seq<JobReport>>
  {
    var jobs :- Iterate(list);
    var reports :- Each(jobs, JobStep(data, clients));
    if "disk_util" in Keys(data) then Ok(reports) else Err(KeyError("disk_util"))
  }

  /** What `normalized()` reports for the data `data` read from `file`. */
  function Normalize(data: Fields, file: string): (r: Result<Report>)
  {
    if "fio version" !in Keys(data) then Err(KeyError("fio version"))
    else
      var version := Find(data, "fio version").value;
      if "jobs" in Keys(data) then
        var reports :- ListReport(data, Find(data, "jobs").value, false);
        Ok(Report(version, reports))
      else if "client_stats" in Keys(data) then
        var reports :- ListReport(data, Find(data, "client_stats").value, true);
        Ok(Report(version, reports))
      else Err(MissingJobs(file))
  }

  /** The loop of `normalized()` over the job list, one `_normalJobStats` per entry. */
  method Normalized(data: Fields, file: string) returns (r: Result<Report>)
    ensures r == Normalize(data, file)
  {
    if "fio version" !in Keys(data) {
      return Err(KeyError("fio version"));
    }
    var version := Find(data, "fio version").value;
    var clients: bool;
    var list: Value;
    if "jobs" in Keys(data) {
      clients, list := false, Find(data, "jobs").value;
    } else if "client_stats" in Keys(data) {
      clients, list := true, Find(data, "client_stats").value;
    } else {
      return Err(MissingJobs(file));
    }
    var jobsOrErr := Iterate(list);
    if jobsOrErr.Err? {
      return Err(jobsOrErr.error);
    }
    var jobs := jobsOrErr.value;
    ghost var step := JobStep(data, clients);
    var reports: seq<JobReport> := [];
    for i := 0 to |jobs|
      invariant Each(jobs[..i], step) == Ok(reports)
    {
      EachSnoc(jobs, step, i);
      var report := NormalJobStats(data, jobs[i]);
      if report.Ok? && clients {
        var host := Get(jobs[i], "hostname");
        if host.Err? {
          report := Err(host.error);
        } else {
          report := Ok(report.value.(host := Some(host.value)));
        }
      }
      assert step(jobs[i]) == report;
      if report.Err? {
        EachErr(jobs, step, i + 1);
        return Err(report.error);
      }
      reports := reports + [report.value];
    }
    assert jobs[..|jobs|] == jobs;
    if "disk_util" !in Keys(data) {
      return Err(KeyError("disk_util"));
    }
    return Ok(Report(version, reports));
  }

  // ---------------------------------------------------------------------
  // What the report promises.

  /** Without a version nothing else is looked at. */
  lemma NoVersion(data: Fields, file: string)
    requires "fio version" !in Keys(data)
    ensures Normalize(data, file) == Err(KeyError("fio version"))
  {
  }

  /** One job's stats fail only with a lookup error. */
  lemma JobStatsError(data: Fields, job: Value)
    requires JobStats(data, job).Err?
    ensures LookupError(JobStats(data, job).error)
  {
    if "time" in Keys(data) && job.Object? {
      var stamped := Stamp(job.fields, Find(data, "time").value);
      var part := ContributionOf(Object(stamped));
      if Tally(IssuedDirs, part).Err? {
        TallyError(IssuedDirs, part);
        var i :| 0 <= i < |IssuedDirs| && part(IssuedDirs[i]) == Err(Tally(IssuedDirs, part).error);
        assert part(IssuedDirs[i]) == Contribution(Object(stamped), IssuedDirs[i]);
      }
    }
  }

  /** The report fails for want of a job list exactly when the data has
      neither `jobs` nor `client_stats`; every other failure is a lookup
      error. */
  lemma MissingJobsIff(data: Fields, file: string)
    requires "fio version" in Keys(data)
    ensures Normalize(data, file) == Err(MissingJobs(file)) <==> "jobs" !in Keys(data) && "client_stats" !in Keys(data)
    ensures Normalize(data, file).Err? && ("jobs" in Keys(data) || "client_stats" in Keys(data)) ==>
      LookupError(Normalize(data, file).error)
  {
    if "jobs" in Keys(data) || "client_stats" in Keys(data) {
      var clients := "jobs" !in Keys(data);
      var list := if clients then Find(data, "client_stats").value else Find(data, "jobs").value;
      var step := JobStep(data, clients);
      if Iterate(list).Ok? && Each(Iterate(list).value, step).Err? {
        var jobs := Iterate(list).value;
        EachError(jobs, step);
        var i :| 0 <= i < |jobs| && step(jobs[i]) == Err(Each(jobs, step).error);
        if JobStats(data, jobs[i]).Err? {
          JobStatsError(data, jobs[i]);
        }
      }
    }
  }

  /** With `jobs` present, `client_stats` is ignored: one report per job, none
      with a host name. */
  lemma JobsPreferred(data: Fields, file: string)
    requires "fio version" in Keys(data) && "jobs" in Keys(data)
    requires Normalize(data, file).Ok?
    ensures Iterate(Find(data, "jobs").value).Ok?
    ensures |Normalize(data, file).value.jobs| == |Iterate(Find(data, "jobs").value).value|
    ensures forall j :: j in Normalize(data, file).value.jobs ==> j.host.None?
    ensures "time" in Keys(data) || |Normalize(data, file).value.jobs| == 0
    ensures "disk_util" in Keys(data)
  {
    var jobs := Iterate(Find(data, "jobs").value).value;
    var step := JobStep(data, false);
    EachOnePerJob(jobs, step);
    var reports := Each(jobs, step).value;
    forall j | j in reports ensures j.host.None? {
      var i :| 0 <= i < |reports| && reports[i] == j;
    }
  }

  /** Without `jobs`, each client's report carries that client's host name. */
  lemma ClientsCarryHosts(data: Fields, file: string)
    requires "fio version" in Keys(data) && "jobs" !in Keys(data) && "client_stats" in Keys(data)
    requires Normalize(data, file).Ok?
    ensures Iterate(Find(data, "client_stats").value).Ok?
    ensures var clients := Iterate(Find(data, "client_stats").value).value;
      var reports := Normalize(data, file).value.jobs;
      |reports| == |clients| &&
      forall i :: 0 <= i < |clients| ==>
        Get(clients[i], "hostname").Ok? && reports[i].host == Some(Get(clients[i], "hostname").value)
    ensures "disk_util" in Keys(data)
  {
    var clients := Iterate(Find(data, "client_stats").value).value;
    var step := JobStep(data, true);
    EachOnePerJob(clients, step);
    var reports := Each(clients, step).value;
    forall i | 0 <= i < |clients|
      ensures Get(clients[i], "hostname").Ok? && reports[i].host == Some(Get(clients[i], "hostname").value)
    {
      HostOfClient(data, clients[i], reports[i]);
    }
  }

  lemma HostOfClient(data: Fields, client: Value, report: JobReport)
    requires JobStep(data, true)(client) == Ok(report)
    ensures Get(client, "hostname").Ok? && report.host == Some(Get(client, "hostname").value)
  {
  }
}
