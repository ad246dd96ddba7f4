// The terse-like records and text (`FioJsonFile.terseList` and
// `FioJsonFile.terse`): one ordered record per job, filled column by column
// from header/path tables, and a `;`-separated text with one header line.

module Terse {
  import opened Strings
  import opened Json
  import opened PathAccess
  import opened Percentiles

  /** A column of the per-direction table: a path to look up, or the
      expansion of the `clat_ns/percentile` table into one field per entry. */
  datatype Column = Metric(path: string) | ClatPercentiles

  /** The column tables of a terse record. */
  datatype Layout = Layout(
    top: seq<(string, string)>,
    job: seq<(string, string)>,
    dirs: seq<string>,
    direction: seq<(string, Column)>,
    rest: seq<(string, string)>,
    disk: seq<(string, string)>)

  /** The first part of `dJobRest`: CPU usage. */
  const CpuColumns: seq<(string, string)> :=
    [ ("cpu_user", "usr_cpu"), ("cpu_sys", "sys_cpu"), ("cpu_csw", "ctx"), ("cpu_mjf", "majf"),
      ("cpu_minf", "minf")]

  /** The second part of `dJobRest`: the IO depth distribution. */
  const IoDepthColumns: seq<(string, string)> :=
    [ ("iodepth_1", "iodepth_level/1"), ("iodepth_2", "iodepth_level/2"), ("iodepth_4", "iodepth_level/4"),
      ("iodepth_8", "iodepth_level/8"), ("iodepth_16", "iodepth_level/16"),
      ("iodepth_32", "iodepth_level/32"), ("iodepth_64", "iodepth_level/>=64")]

  /** The last part of `dJobRest`: the latency distribution. */
  const LatencyColumns: seq<(string, string)> :=
    [ ("lat_2us", "latency_us/2"), ("lat_4us", "latency_us/4"), ("lat_10us", "latency_us/10"),
      ("lat_20us", "latency_us/20"), ("lat_50us", "latency_us/50"), ("lat_100us", "latency_us/100"),
      ("lat_250us", "latency_us/250"), ("lat_500us", "latency_us/500"), ("lat_750us", "latency_us/750"),
      ("lat_1000us", "latency_us/1000"),
      ("lat_2ms", "latency_ms/2"), ("lat_4ms", "latency_ms/4"), ("lat_10ms", "latency_ms/10"),
      ("lat_20ms", "latency_ms/20"), ("lat_50ms", "latency_ms/50"), ("lat_100ms", "latency_ms/100"),
      ("lat_250ms", "latency_ms/250"), ("lat_500ms", "latency_ms/500"), ("lat_750ms", "latency_ms/750"),
      ("lat_1000ms", "latency_ms/1000"), ("lat_2000ms", "latency_ms/2000"),
      ("lat_over_2000ms", "latency_ms/>=2000")]

  /** The tables `terseList` uses (`dTerse`, `dJobs`, the directions it
      looks for, `dDirections`, `dJobRest`, `dDiskUtil`). */
  const FioLayout: Layout := Layout(
    [("fio_version", "fio version")],
    [("jobname", "jobname"), ("groupid", "groupid"), ("error", "error")],
    ["read", "write", "mixed"],
    [ ("_kb", Metric("io_kbytes")), ("_bandwidth", Metric("bw")), ("_iops", Metric("iops")),
      ("_runtime_ms", Metric("runtime")),
      ("_slat_min", Metric("slat_ns/min")), ("_slat_max", Metric("slat_ns/max")),
      ("_slat_mean", Metric("slat_ns/mean")), ("_slat_dev", Metric("slat_ns/stddev")),
      ("_clat_min", Metric("clat_ns/min")), ("_clat_max", Metric("clat_ns/max")),
      ("_clat_mean", Metric("clat_ns/mean")), ("_clat_dev", Metric("clat_ns/stddev")),
      ("_clat_pct", ClatPercentiles),
      ("_lat_min", Metric("lat_ns/min")), ("_lat_max", Metric("lat_ns/max")),
      ("_lat_mean", Metric("lat_ns/mean")), ("_lat_dev", Metric("lat_ns/stddev")),
      ("_bw_min", Metric("bw_min")), ("_bw_max", Metric("bw_max")), ("_bw_agg_pct", Metric("bw_agg")),
      ("_bw_mean", Metric("bw_mean")), ("_bw_dev", Metric("bw_dev"))],
    CpuColumns + IoDepthColumns + LatencyColumns,
    [ ("disk_name", "name"), ("disk_read_iops", "read_ios"), ("disk_write_iops", "write_ios"),
      ("disk_read_merges", "read_merges"), ("disk_write_merges", "write_merges"),
      ("disk_read_ticks", "read_ticks"), ("write_ticks", "write_ticks"),
      ("disk_queue_time", "in_queue"), ("disk_util", "util")])

  /** The record every job starts from. */
  const Head: Fields := [("terse_version", Str("??"))]

  // ---------------------------------------------------------------------
  // What the columns assign, in order.

  /** The assignments `dOut[prefix + hdr] = _getObjValue(obj, path)` of a
      table; the first failing lookup is the error. */
  function PathValues(obj: Value, prefix: string, table: seq<(string, string)>): (r: Result<Fields>)
    ensures r.Ok? <==> forall i :: 0 <= i < |table| ==> GetObjValue(obj, table[i].1).Ok?
    ensures r.Ok? ==> Keys(r.value) == seq(|table|, i requires 0 <= i < |table| => prefix + table[i].0)
    ensures r.Ok? ==> forall i :: 0 <= i < |table| ==> r.value[i].1 == GetObjValue(obj, table[i].1).value
    ensures r.Err? ==> exists i :: 0 <= i < |table| && GetObjValue(obj, table[i].1) == Err(r.error)
  {
    if |table| == 0 then Ok([])
    else
      var n := |table| - 1;
      var before :- PathValues(obj, prefix, table[..n]);
      var v :- GetObjValue(obj, table[n].1);
      KeysConcat(before, [(prefix + table[n].0, v)]);
      Ok(before + [(prefix + table[n].0, v)])
  }

  /** The assignments of one column of the direction table for direction
      `dirName`; the percentile column looks up `clat_ns/percentile` and
      expands it. */
  function ColumnValues(dirObj: Value, dirName: string, hdr: string, col: Column): Result<Fields>
  {
    match col
    case Metric(path) =>
      var v :- GetObjValue(dirObj, path);
      Ok([(dirName + hdr, v)])
    case ClatPercentiles =>
      var pcts :- Walk(dirObj, ["clat_ns", "percentile"]);
      if !pcts.Object? then Err(TypeError)
      else PercentileFields(dirName + hdr, AsWritten, pcts.fields)
  }

  /** The assignments of the direction table for one direction. */
  function DirectionValues(dirObj: Value, dirName: string, table: seq<(string, Column)>): Result<Fields>
  {
    if |table| == 0 then Ok([])
    else
      var n := |table| - 1;
      var before :- DirectionValues(dirObj, dirName, table[..n]);
      var last :- ColumnValues(dirObj, dirName, table[n].0, table[n].1);
      Ok(before + last)
  }

  /** `dAvailDirs`: the directions of `dirs` the job has, in the order of
      `dirs`, with their objects. */
  function AvailDirs(job: Value, dirs: seq<string>): (r: Fields)
    ensures |r| <= |dirs|
    ensures forall i :: 0 <= i < |r| ==> r[i].0 in dirs && Has(job, r[i].0) && r[i].1 == Get(job, r[i].0).value
  {
    if |dirs| == 0 then []
    else
      var before := AvailDirs(job, dirs[..|dirs| - 1]);
      var d := dirs[|dirs| - 1];
      if Has(job, d) then before + [(d, Get(job, d).value)] else before
  }

  /** The position of `d` in `dirs`, its first occurrence. */
  function IndexOf(dirs: seq<string>, d: string): (k: nat)
    requires d in dirs
    ensures k < |dirs| && dirs[k] == d
    ensures forall j :: 0 <= j < k ==> dirs[j] != d
  {
    if dirs[0] == d then 0 else 1 + IndexOf(dirs[1..], d)
  }

  /** Taking a direction off the end does not move the others. */
  lemma IndexOfInit(init: seq<string>, last: string, d: string)
    requires d in init
    ensures IndexOf(init + [last], d) == IndexOf(init, d)
  {
    var k := IndexOf(init, d);
    var m := IndexOf(init + [last], d);
    assert (init + [last])[k] == d;
    assert m <= k;
  }

  /** Among distinct directions the last one sits at the end. */
  lemma IndexOfLast(dirs: seq<string>)
    requires |dirs| > 0
    requires forall p, q :: 0 <= p < q < |dirs| ==> dirs[p] != dirs[q]
    ensures IndexOf(dirs, dirs[|dirs| - 1]) == |dirs| - 1
  {
    var m := IndexOf(dirs, dirs[|dirs| - 1]);
    assert dirs[m] == dirs[|dirs| - 1];
  }

  /** `dAvailDirs` holds every direction of `dirs` the job has: with
      `read`, `write`, `mixed`, each present one is taken. */
  lemma {:induction false} AvailDirsComplete(job: Value, dirs: seq<string>, k: nat)
    requires k < |dirs| && Has(job, dirs[k])
    ensures exists i :: 0 <= i < |AvailDirs(job, dirs)| && AvailDirs(job, dirs)[i].0 == dirs[k]
    decreases |dirs|
  {
    var n := |dirs| - 1;
    var r := AvailDirs(job, dirs);
    if k < n {
      AvailDirsComplete(job, dirs[..n], k);
      var before := AvailDirs(job, dirs[..n]);
      var i :| 0 <= i < |before| && before[i].0 == dirs[..n][k];
      assert r[i] == before[i];
    } else {
      assert r[|r| - 1].0 == dirs[k];
    }
  }

  /** Of distinct directions, `dAvailDirs` keeps the order of `dirs`: read
      before write before mixed. */
  lemma {:induction false} AvailDirsOrdered(job: Value, dirs: seq<string>)
    requires forall p, q :: 0 <= p < q < |dirs| ==> dirs[p] != dirs[q]
    ensures forall i, j :: 0 <= i < j < |AvailDirs(job, dirs)| ==>
      IndexOf(dirs, AvailDirs(job, dirs)[i].0) < IndexOf(dirs, AvailDirs(job, dirs)[j].0)
    decreases |dirs|
  {
    if |dirs| > 0 {
      var n := |dirs| - 1;
      var init, last := dirs[..n], dirs[n];
      assert dirs == init + [last];
      AvailDirsOrdered(job, init);
      var before := AvailDirs(job, init);
      var r := AvailDirs(job, dirs);
      assert before <= r;
      forall i, j | 0 <= i < j < |r|
        ensures IndexOf(dirs, r[i].0) < IndexOf(dirs, r[j].0)
      {
        AvailStep(job, init, last, before, i, j);
      }
    }
  }

  /** One pair of chosen directions, after `last` is considered. */
  lemma AvailStep(job: Value, init: seq<string>, last: string, before: Fields, i: nat, j: nat)
    requires forall p, q :: 0 <= p < q < |init + [last]| ==> (init + [last])[p] != (init + [last])[q]
    requires before == AvailDirs(job, init)
    requires forall i, j :: 0 <= i < j < |before| ==> IndexOf(init, before[i].0) < IndexOf(init, before[j].0)
    requires i < j < |AvailDirs(job, init + [last])|
    ensures IndexOf(init + [last], AvailDirs(job, init + [last])[i].0) < IndexOf(init + [last], AvailDirs(job, init + [last])[j].0)
  {
    var dirs := init + [last];
    assert dirs[..|init|] == init;
    var r := AvailDirs(job, dirs);
    assert r[i] == before[i];
    IndexOfInit(init, last, r[i].0);
    if j < |before| {
      assert r[j] == before[j];
      IndexOfInit(init, last, r[j].0);
    } else {
      assert r[j].0 == last;
      IndexOfLast(dirs);
    }
  }

  /** A job with `read` and `mixed` but no `write` takes read, then mixed. */
  lemma AvailReadMixed(job: Value)
    requires Has(job, "read") && !Has(job, "write") && Has(job, "mixed")
    ensures |AvailDirs(job, FioLayout.dirs)| == 2
    ensures AvailDirs(job, FioLayout.dirs)[0].0 == "read"
    ensures AvailDirs(job, FioLayout.dirs)[1].0 == "mixed"
  {
    var r, rw, rwm: seq<string> := ["read"], ["read", "write"], ["read", "write", "mixed"];
    assert rwm == FioLayout.dirs;
    assert r[..0] == [] && rw[..1] == r && rwm[..2] == rw;
    assert AvailDirs(job, r) == [("read", Get(job, "read").value)];
    assert AvailDirs(job, rw) == AvailDirs(job, r);
  }

  /** The direction assignments for every available direction, in order. */
  function DirsValues(avail: Fields, table: seq<(string, Column)>): Result<Fields>
  {
    if |avail| == 0 then Ok([])
    else
      var n := |avail| - 1;
      var before :- DirsValues(avail[..n], table);
      var last :- DirectionValues(avail[n].1, avail[n].0, table);
      Ok(before + last)
  }

  /** The disk assignments, disk after disk. */
  function DisksValues(disks: seq<Value>, table: seq<(string, string)>): Result<Fields>
  {
    if |disks| == 0 then Ok([])
    else
      var n := |disks| - 1;
      var before :- DisksValues(disks[..n], table);
      var last :- PathValues(disks[n], "", table);
      Ok(before + last)
  }

  /** The assignments after the identifying columns: the directions, the
      rest of the job, then the disks. */
  function LaterValues(job: Value, diskList: Value, layout: Layout): Result<Fields>
  {
    var dirs :- DirsValues(AvailDirs(job, layout.dirs), layout.direction);
    var rest :- PathValues(job, "", layout.rest);
    var disks :- Iterate(diskList);
    var du :- DisksValues(disks, layout.disk);
    Ok(dirs + rest + du)
  }

  /** Every assignment of one job's record, in the source's order. */
  function RecordValues(data: Fields, job: Value, diskList: Value, layout: Layout): Result<Fields>
  {
    var top :- PathValues(Object(data), "", layout.top);
    var ids :- PathValues(job, "", layout.job);
    var later :- LaterValues(job, diskList, layout);
    Ok(top + ids + later)
  }

  /** One job's record: the head with every assignment applied in order. */
  function Record(data: Fields, job: Value, diskList: Value, layout: Layout): Result<Fields>
  {
    var vs :- RecordValues(data, job, diskList, layout);
    Ok(PutAll(Head, vs))
  }

  /** The record of a job, as a function of the job. */
  function RecordOf(data: Fields, diskList: Value, layout: Layout): Value -> Result<Fields>
  {
    job => Record(data, job, diskList, layout)
  }

  /** The records of a list of jobs, job after job; the first failing job
      ends the list. */
  function Records(jobs: seq<Value>, record: Value -> Result<Fields>): Result<seq<Fields>>
  {
    if |jobs| == 0 then Ok([])
    else
      var n := |jobs| - 1;
      var before :- Records(jobs[..n], record);
      var last :- record(jobs[n]);
      Ok(before + [last])
  }

  /** What `terseList()` returns: `jobs` and `disk_util` are looked up
      first, then the jobs are iterated. */
  function TerseRecords(data: Fields, layout: Layout): Result<seq<Fields>>
  {
    var jobList :- Get(Object(data), "jobs");
    var diskList :- Get(Object(data), "disk_util");
    var jobs :- Iterate(jobList);
    Records(jobs, RecordOf(data, diskList, layout))
  }

  // ---------------------------------------------------------------------
  // The record built in place, as `terseList` does.

  lemma PathValuesSnoc(obj: Value, prefix: string, table: seq<(string, string)>, i: nat)
    requires i < |table|
    ensures PathValues(obj, prefix, table[..i + 1]) ==
      var before :- PathValues(obj, prefix, table[..i]);
      var v :- GetObjValue(obj, table[i].1);
      Ok(before + [(prefix + table[i].0, v)])
  {
    assert table[..i + 1][..i] == table[..i];
  }

  /** `for hdr, path in table.items(): dOut[prefix + hdr] = _getObjValue(obj, path)`. */
  method AddPaths(dOut: Fields, obj: Value, prefix: string, table: seq<(string, string)>) returns (r: Result<Fields>)
    ensures r == PutAllOk(dOut, PathValues(obj, prefix, table))
  {
    var d := dOut;
    ghost var done: Fields := [];
    for i := 0 to |table|
      invariant PathValues(obj, prefix, table[..i]) == Ok(done)
      invariant d == PutAll(dOut, done)
    {
      PathValuesSnoc(obj, prefix, table, i);
      var v := GetObjValue(obj, table[i].1);
      if v.Err? {
        PathValuesErr(obj, prefix, table, i + 1);
        return Err(v.error);
      }
      PutAllSnoc(dOut, done, (prefix + table[i].0, v.value));
      d := Put(d, prefix + table[i].0, v.value);
      done := done + [(prefix + table[i].0, v.value)];
    }
    assert table[..|table|] == table;
    return Ok(d);
  }

  /** A failing prefix of a table fails the whole table the same way. */
  lemma {:induction false} PathValuesErr(obj: Value, prefix: string, table: seq<(string, string)>, k: nat)
    requires k <= |table| && PathValues(obj, prefix, table[..k]).Err?
    ensures PathValues(obj, prefix, table) == PathValues(obj, prefix, table[..k])
    decreases |table| - k
  {
    if k < |table| {
      PathValuesSnoc(obj, prefix, table, k);
      PathValuesErr(obj, prefix, table, k + 1);
    } else {
      assert table[..k] == table;
    }
  }

  lemma DirectionValuesSnoc(dirObj: Value, dirName: string, table: seq<(string, Column)>, i: nat)
    requires i < |table|
    ensures DirectionValues(dirObj, dirName, table[..i + 1]) ==
      var before :- DirectionValues(dirObj, dirName, table[..i]);
      var last :- ColumnValues(dirObj, dirName, table[i].0, table[i].1);
      Ok(before + last)
  {
    assert table[..i + 1][..i] == table[..i];
  }

  lemma {:induction false} DirectionValuesErr(dirObj: Value, dirName: string, table: seq<(string, Column)>, k: nat)
    requires k <= |table| && DirectionValues(dirObj, dirName, table[..k]).Err?
    ensures DirectionValues(dirObj, dirName, table) == DirectionValues(dirObj, dirName, table[..k])
    decreases |table| - k
  {
    if k < |table| {
      DirectionValuesSnoc(dirObj, dirName, table, k);
      DirectionValuesErr(dirObj, dirName, table, k + 1);
    } else {
      assert table[..k] == table;
    }
  }

  /** The inner loop over `dDirections` for one direction: a path column
      assigns one field, the percentile column calls the expansion. */
  method AddDirection(dOut: Fields, dirName: string, dirObj: Value, table: seq<(string, Column)>) returns (r: Result<Fields>)
    ensures r == PutAllOk(dOut, DirectionValues(dirObj, dirName, table))
  {
    var d := dOut;
    ghost var done: Fields := [];
    for i := 0 to |table|
      invariant DirectionValues(dirObj, dirName, table[..i]) == Ok(done)
      invariant d == PutAll(dOut, done)
    {
      DirectionValuesSnoc(dirObj, dirName, table, i);
      var metricName := dirName + table[i].0;
      ghost var col := ColumnValues(dirObj, dirName, table[i].0, table[i].1);
      if table[i].1.ClatPercentiles? {
        var pcts := Walk(dirObj, ["clat_ns", "percentile"]);
        if pcts.Err? {
          DirectionValuesErr(dirObj, dirName, table, i + 1);
          return Err(pcts.error);
        }
        var added := AddPercentiles(d, metricName, pcts.value);
        if added.Err? {
          DirectionValuesErr(dirObj, dirName, table, i + 1);
          return Err(added.error);
        }
        PutAllConcat(dOut, done, col.value);
        d := added.value;
      } else {
        var v := GetObjValue(dirObj, table[i].1.path);
        if v.Err? {
          DirectionValuesErr(dirObj, dirName, table, i + 1);
          return Err(v.error);
        }
        PutAllSnoc(dOut, done, (metricName, v.value));
        d := Put(d, metricName, v.value);
      }
      done := done + col.value;
    }
    assert table[..|table|] == table;
    return Ok(d);
  }

  lemma DirsValuesSnoc(avail: Fields, table: seq<(string, Column)>, i: nat)
    requires i < |avail|
    ensures DirsValues(avail[..i + 1], table) ==
      var before :- DirsValues(avail[..i], table);
      var last :- DirectionValues(avail[i].1, avail[i].0, table);
      Ok(before + last)
  {
    assert avail[..i + 1][..i] == avail[..i];
  }

  lemma {:induction false} DirsValuesErr(avail: Fields, table: seq<(string, Column)>, k: nat)
    requires k <= |avail| && DirsValues(avail[..k], table).Err?
    ensures DirsValues(avail, table) == DirsValues(avail[..k], table)
    decreases |avail| - k
  {
    if k < |avail| {
      DirsValuesSnoc(avail, table, k);
      DirsValuesErr(avail, table, k + 1);
    } else {
      assert avail[..k] == avail;
    }
  }

  lemma DisksValuesSnoc(disks: seq<Value>, table: seq<(string, string)>, i: nat)
    requires i < |disks|
    ensures DisksValues(disks[..i + 1], table) ==
      var before :- DisksValues(disks[..i], table);
      var last :- PathValues(disks[i], "", table);
      Ok(before + last)
  {
    assert disks[..i + 1][..i] == disks[..i];
  }

  lemma {:induction false} DisksValuesErr(disks: seq<Value>, table: seq<(string, string)>, k: nat)
    requires k <= |disks| && DisksValues(disks[..k], table).Err?
    ensures DisksValues(disks, table) == DisksValues(disks[..k], table)
    decreases |disks| - k
  {
    if k < |disks| {
      DisksValuesSnoc(disks, table, k);
      DisksValuesErr(disks, table, k + 1);
    } else {
      assert disks[..k] == disks;
    }
  }

  /** When the disk assignments succeed, so do those of the first disk. */
  lemma DisksFirstOk(disks: seq<Value>, table: seq<(string, string)>)
    requires |disks| > 0 && DisksValues(disks, table).Ok?
    ensures PathValues(disks[0], "", table).Ok?
  {
    DisksValuesSnoc(disks, table, 0);
    assert disks[..0] == [];
    if PathValues(disks[0], "", table).Err? {
      DisksValuesErr(disks, table, 1);
    }
  }

  /** The loop over directions: the direction table for every available
      direction, in order. */
  method AddDirections(dOut: Fields, avail: Fields, table: seq<(string, Column)>) returns (r: Result<Fields>)
    ensures r == PutAllOk(dOut, DirsValues(avail, table))
  {
    var d := dOut;
    ghost var done: Fields := [];
    for i := 0 to |avail|
      invariant DirsValues(avail[..i], table) == Ok(done)
      invariant d == PutAll(dOut, done)
    {
      DirsValuesSnoc(avail, table, i);
      var added := AddDirection(d, avail[i].0, avail[i].1, table);
      if added.Err? {
        DirsValuesErr(avail, table, i + 1);
        return Err(added.error);
      }
      ghost var fs := DirectionValues(avail[i].1, avail[i].0, table).value;
      PutAllConcat(dOut, done, fs);
      d := added.value;
      done := done + fs;
    }
    assert avail[..|avail|] == avail;
    return Ok(d);
  }

  /** The loop over disks: the disk table for every disk, each disk
      assigning the same headers again. */
  method AddDisks(dOut: Fields, disks: seq<Value>, table: seq<(string, string)>) returns (r: Result<Fields>)
    ensures r == PutAllOk(dOut, DisksValues(disks, table))
  {
    var d := dOut;
    ghost var done: Fields := [];
    for i := 0 to |disks|
      invariant DisksValues(disks[..i], table) == Ok(done)
      invariant d == PutAll(dOut, done)
    {
      DisksValuesSnoc(disks, table, i);
      var added := AddPaths(d, disks[i], "", table);
      if added.Err? {
        DisksValuesErr(disks, table, i + 1);
        return Err(added.error);
      }
      ghost var fs := PathValues(disks[i], "", table).value;
      PutAllConcat(dOut, done, fs);
      d := added.value;
      done := done + fs;
    }
    assert disks[..|disks|] == disks;
    return Ok(d);
  }

  /** The directions, the rest of the job and the disks, assigned in order. */
  method AddLater(dOut: Fields, job: Value, diskList: Value, layout: Layout) returns (r: Result<Fields>)
    ensures r == PutAllOk(dOut, LaterValues(job, diskList, layout))
  {
    var avail := AvailDirs(job, layout.dirs);
    var dirs := AddDirections(dOut, avail, layout.direction);
    if dirs.Err? {
      return Err(dirs.error);
    }
    var rest := AddPaths(dirs.value, job, "", layout.rest);
    if rest.Err? {
      return Err(rest.error);
    }
    var disks := Iterate(diskList);
    if disks.Err? {
      return Err(disks.error);
    }
    var du := AddDisks(rest.value, disks.value, layout.disk);
    if du.Err? {
      return Err(du.error);
    }
    ghost var c := DirsValues(avail, layout.direction).value;
    ghost var e := PathValues(job, "", layout.rest).value;
    ghost var f := DisksValues(disks.value, layout.disk).value;
    PutAllConcat(dOut, c, e);
    PutAllConcat(dOut, c + e, f);
    return du;
  }

  /** The body of the loop over jobs: one job's record. */
  method JobRecord(data: Fields, job: Value, diskList: Value, layout: Layout) returns (r: Result<Fields>)
    ensures r == Record(data, job, diskList, layout)
  {
    var top := AddPaths(Head, Object(data), "", layout.top);
    if top.Err? {
      return Err(top.error);
    }
    var ids := AddPaths(top.value, job, "", layout.job);
    if ids.Err? {
      return Err(ids.error);
    }
    var later := AddLater(ids.value, job, diskList, layout);
    if later.Err? {
      return Err(later.error);
    }
    ghost var a := PathValues(Object(data), "", layout.top).value;
    ghost var b := PathValues(job, "", layout.job).value;
    ghost var c := LaterValues(job, diskList, layout).value;
    PutAllConcat(Head, a, b);
    PutAllConcat(Head, a + b, c);
    return later;
  }

  lemma RecordsSnoc(jobs: seq<Value>, record: Value -> Result<Fields>, i: nat)
    requires i < |jobs|
    ensures Records(jobs[..i + 1], record) ==
      var before :- Records(jobs[..i], record);
      var last :- record(jobs[i]);
      Ok(before + [last])
  {
    assert jobs[..i + 1][..i] == jobs[..i];
  }

  lemma {:induction false} RecordsErr(jobs: seq<Value>, record: Value -> Result<Fields>, k: nat)
    requires k <= |jobs| && Records(jobs[..k], record).Err?
    ensures Records(jobs, record) == Records(jobs[..k], record)
    decreases |jobs| - k
  {
    if k < |jobs| {
      RecordsSnoc(jobs, record, k);
      RecordsErr(jobs, record, k + 1);
    } else {
      assert jobs[..k] == jobs;
    }
  }

  /** `terseList()`: one record per job. */
  method TerseList(data: Fields) returns (r: Result<seq<Fields>>)
    ensures r == TerseRecords(data, FioLayout)
  {
    var jobList := Get(Object(data), "jobs");
    if jobList.Err? {
      return Err(jobList.error);
    }
    var diskList := Get(Object(data), "disk_util");
    if diskList.Err? {
      return Err(diskList.error);
    }
    var jobs := Iterate(jobList.value);
    if jobs.Err? {
      return Err(jobs.error);
    }
    var outList: seq<Fields> := [];
    ghost var record := RecordOf(data, diskList.value, FioLayout);
    for i := 0 to |jobs.value|
      invariant Records(jobs.value[..i], record) == Ok(outList)
    {
      RecordsSnoc(jobs.value, record, i);
      var dOut := JobRecord(data, jobs.value[i], diskList.value, FioLayout);
      assert record(jobs.value[i]) == dOut;
      if dOut.Err? {
        RecordsErr(jobs.value, record, i + 1);
        return Err(dOut.error);
      }
      outList := outList + [dOut.value];
    }
    assert jobs.value[..|jobs.value|] == jobs.value;
    return Ok(outList);
  }

  // ---------------------------------------------------------------------
  // What the records promise.

  /** Without `jobs` there is a KeyError; with `jobs` but without
      `disk_util` too, before any job is looked at. */
  lemma TerseMissingKeys(data: Fields, layout: Layout)
    ensures !Has(Object(data), "jobs") ==> TerseRecords(data, layout) == Err(KeyError("jobs"))
    ensures Has(Object(data), "jobs") && !Has(Object(data), "disk_util") ==>
      TerseRecords(data, layout) == Err(KeyError("disk_util"))
  {
  }

  /** An empty job list gives no records, whatever `disk_util` holds: the
      disk list is only iterated inside the loop over jobs. */
  lemma TerseNoJobs(data: Fields, layout: Layout)
    requires Get(Object(data), "jobs") == Ok(Array([]))
    requires Has(Object(data), "disk_util")
    ensures TerseRecords(data, layout) == Ok([])
  {
  }

  /** One record per job, in job order, each the record of its job. */
  lemma {:induction false} RecordsOnePerJob(jobs: seq<Value>, record: Value -> Result<Fields>)
    requires Records(jobs, record).Ok?
    ensures |Records(jobs, record).value| == |jobs|
    ensures forall i :: 0 <= i < |jobs| ==> record(jobs[i]) == Ok(Records(jobs, record).value[i])
  {
    if |jobs| > 0 {
      var n := |jobs| - 1;
      RecordsOnePerJob(jobs[..n], record);
      var before := Records(jobs[..n], record).value;
      forall i | 0 <= i < n ensures jobs[..n][i] == jobs[i] { }
    }
  }

  /** A failing job makes `terseList()` fail, whatever the jobs after it hold. */
  lemma {:induction false} RecordsFirstError(jobs: seq<Value>, record: Value -> Result<Fields>, k: nat)
    requires k < |jobs| && record(jobs[k]).Err?
    requires forall i :: 0 <= i < k ==> record(jobs[i]).Ok?
    ensures Records(jobs, record) == Err(record(jobs[k]).error)
  {
    RecordsPrefixOk(jobs, record, k);
    RecordsSnoc(jobs, record, k);
    RecordsErr(jobs, record, k + 1);
  }

  lemma {:induction false} RecordsPrefixOk(jobs: seq<Value>, record: Value -> Result<Fields>, k: nat)
    requires k <= |jobs|
    requires forall i :: 0 <= i < k ==> record(jobs[i]).Ok?
    ensures Records(jobs[..k], record).Ok?
  {
    if k > 0 {
      RecordsPrefixOk(jobs, record, k - 1);
      RecordsSnoc(jobs, record, k - 1);
    }
  }

  /** Keys that cannot clash with the leading columns `terse_version`,
      `fio_version`, `jobname`, `groupid` and `error`. */
  predicate Outside(k: string)
  {
    |k| > 0 && k[0] != 't' && k[0] != 'f' && k[0] != 'j' && k[0] != 'g' && k[0] != 'e'
  }

  predicate KeysOutside(fs: Fields)
  {
    forall i :: 0 <= i < |fs| ==> Outside(fs[i].0)
  }

  predicate HeadersOutside(table: seq<(string, string)>)
  {
    forall i :: 0 <= i < |table| ==> Outside(table[i].0)
  }

  lemma PathKeysOutside(obj: Value, table: seq<(string, string)>)
    requires HeadersOutside(table) && PathValues(obj, "", table).Ok?
    ensures KeysOutside(PathValues(obj, "", table).value)
  {
    var fs := PathValues(obj, "", table).value;
    forall i | 0 <= i < |fs| ensures Outside(fs[i].0) {
      assert Keys(fs)[i] == fs[i].0;
    }
  }

  lemma ColumnKeysOutside(dirObj: Value, dirName: string, hdr: string, col: Column)
    requires Outside(dirName) && ColumnValues(dirObj, dirName, hdr, col).Ok?
    ensures KeysOutside(ColumnValues(dirObj, dirName, hdr, col).value)
  {
    var fs := ColumnValues(dirObj, dirName, hdr, col).value;
    forall i | 0 <= i < |fs| ensures Outside(fs[i].0) {
      if col.ClatPercentiles? {
        var pcts := Walk(dirObj, ["clat_ns", "percentile"]).value;
        assert fs[i].0 == FieldName(dirName + hdr, AsWritten, pcts.fields[i].0);
      }
      assert fs[i].0[0] == dirName[0];
    }
  }

  lemma {:induction false} DirectionKeysOutside(dirObj: Value, dirName: string, table: seq<(string, Column)>)
    requires Outside(dirName) && DirectionValues(dirObj, dirName, table).Ok?
    ensures KeysOutside(DirectionValues(dirObj, dirName, table).value)
  {
    if |table| > 0 {
      var n := |table| - 1;
      DirectionKeysOutside(dirObj, dirName, table[..n]);
      ColumnKeysOutside(dirObj, dirName, table[n].0, table[n].1);
    }
  }

  lemma {:induction false} DirsKeysOutside(avail: Fields, table: seq<(string, Column)>)
    requires forall i :: 0 <= i < |avail| ==> Outside(avail[i].0)
    requires DirsValues(avail, table).Ok?
    ensures KeysOutside(DirsValues(avail, table).value)
  {
    if |avail| > 0 {
      var n := |avail| - 1;
      DirsKeysOutside(avail[..n], table);
      DirectionKeysOutside(avail[n].1, avail[n].0, table);
    }
  }

  lemma {:induction false} DisksKeysOutside(disks: seq<Value>, table: seq<(string, string)>)
    requires HeadersOutside(table) && DisksValues(disks, table).Ok?
    ensures KeysOutside(DisksValues(disks, table).value)
  {
    if |disks| > 0 {
      var n := |disks| - 1;
      DisksKeysOutside(disks[..n], table);
      PathKeysOutside(disks[n], table);
    }
  }

  /** The shape of a layout whose records lead with `terse_version`,
      `fio_version`, `jobname`, `groupid` and `error`: one top column and
      three job columns with those headers, and every other header clear of
      them. */
  predicate LeadingLayout(layout: Layout)
  {
    && |layout.top| == 1 && layout.top[0].0 == "fio_version"
    && |layout.job| == 3 && layout.job[0].0 == "jobname" && layout.job[1].0 == "groupid" && layout.job[2].0 == "error"
    && (forall i :: 0 <= i < |layout.dirs| ==> Outside(layout.dirs[i]))
    && HeadersOutside(layout.rest)
    && HeadersOutside(layout.disk)
  }

  /** The tables of `terseList` have that shape. */
  lemma FioLayoutLeads()
    ensures LeadingLayout(FioLayout)
  {
    FioRestOutside();
    FioDiskOutside();
  }

  lemma FioRestOutside()
    ensures HeadersOutside(FioLayout.rest)
  {
    var a, b, c := CpuColumns, IoDepthColumns, LatencyColumns;
    assert HeadersOutside(a);
    assert HeadersOutside(b);
    assert HeadersOutside(c);
    HeadersOutsideConcat(a, b);
    HeadersOutsideConcat(a + b, c);
  }

  lemma HeadersOutsideConcat(a: seq<(string, string)>, b: seq<(string, string)>)
    requires HeadersOutside(a) && HeadersOutside(b)
    ensures HeadersOutside(a + b)
  {
    assert forall i :: 0 <= i < |a + b| ==> (a + b)[i] == if i < |a| then a[i] else b[i - |a|];
  }

  lemma FioDiskOutside()
    ensures HeadersOutside(FioLayout.disk)
  {
  }

  /** The later assignments cannot clash with the leading columns. */
  lemma LaterOutside(job: Value, diskList: Value, layout: Layout)
    requires LeadingLayout(layout)
    requires LaterValues(job, diskList, layout).Ok?
    ensures KeysOutside(LaterValues(job, diskList, layout).value)
  {
    var avail := AvailDirs(job, layout.dirs);
    var disks := Iterate(diskList).value;
    forall i | 0 <= i < |avail| ensures Outside(avail[i].0) {
      var j :| 0 <= j < |layout.dirs| && layout.dirs[j] == avail[i].0;
    }
    DirsKeysOutside(avail, layout.direction);
    PathKeysOutside(job, layout.rest);
    DisksKeysOutside(disks, layout.disk);
    ConcatOutside(DirsValues(avail, layout.direction).value, PathValues(job, "", layout.rest).value,
      DisksValues(disks, layout.disk).value);
  }

  /** A record's assignments: the leading columns, then columns that
      cannot clash with them. */
  lemma RecordValuesSplit(data: Fields, job: Value, diskList: Value, layout: Layout)
    requires LeadingLayout(layout)
    requires RecordValues(data, job, diskList, layout).Ok?
    ensures var vs := RecordValues(data, job, diskList, layout).value;
      && |vs| >= 4
      && vs[..4] == [
        ("fio_version", GetObjValue(Object(data), layout.top[0].1).value),
        ("jobname", GetObjValue(job, layout.job[0].1).value),
        ("groupid", GetObjValue(job, layout.job[1].1).value),
        ("error", GetObjValue(job, layout.job[2].1).value)]
      && KeysOutside(vs[4..])
  {
    var top := PathValues(Object(data), "", layout.top).value;
    var ids := PathValues(job, "", layout.job).value;
    var later := LaterValues(job, diskList, layout).value;
    var vs := top + ids + later;
    assert RecordValues(data, job, diskList, layout) == Ok(vs);
    LeadingValues(data, job, layout);
    assert vs[4..] == later;
    assert vs[..4] == top + ids;
    LaterOutside(job, diskList, layout);
  }

  /** The assignments of the top-level and the job-identity tables. */
  lemma LeadingValues(data: Fields, job: Value, layout: Layout)
    requires LeadingLayout(layout)
    requires PathValues(Object(data), "", layout.top).Ok? && PathValues(job, "", layout.job).Ok?
    ensures PathValues(Object(data), "", layout.top).value + PathValues(job, "", layout.job).value == [
        ("fio_version", GetObjValue(Object(data), layout.top[0].1).value),
        ("jobname", GetObjValue(job, layout.job[0].1).value),
        ("groupid", GetObjValue(job, layout.job[1].1).value),
        ("error", GetObjValue(job, layout.job[2].1).value)]
  {
    TopValues(data, layout);
    IdentityValues(job, layout);
  }

  lemma TopValues(data: Fields, layout: Layout)
    requires LeadingLayout(layout)
    requires PathValues(Object(data), "", layout.top).Ok?
    ensures PathValues(Object(data), "", layout.top).value ==
      [("fio_version", GetObjValue(Object(data), layout.top[0].1).value)]
  {
    var top := PathValues(Object(data), "", layout.top).value;
    PathValuesEntries(Object(data), "", layout.top);
    assert |top| == 1;
    assert "" + layout.top[0].0 == layout.top[0].0;
  }

  lemma IdentityValues(job: Value, layout: Layout)
    requires LeadingLayout(layout)
    requires PathValues(job, "", layout.job).Ok?
    ensures PathValues(job, "", layout.job).value == [
        ("jobname", GetObjValue(job, layout.job[0].1).value),
        ("groupid", GetObjValue(job, layout.job[1].1).value),
        ("error", GetObjValue(job, layout.job[2].1).value)]
  {
    var ids := PathValues(job, "", layout.job).value;
    PathValuesEntries(job, "", layout.job);
    assert |ids| == 3;
    assert forall k :: 0 <= k < 3 ==> "" + layout.job[k].0 == layout.job[k].0;
  }

  lemma ConcatOutside(a: Fields, b: Fields, c: Fields)
    requires KeysOutside(a) && KeysOutside(b) && KeysOutside(c)
    ensures KeysOutside(a + b + c)
  {
    var abc := a + b + c;
    forall i | 0 <= i < |abc| ensures Outside(abc[i].0) {
      if i < |a| {
        assert abc[i] == a[i];
      } else if i < |a| + |b| {
        assert abc[i] == b[i - |a|];
      } else {
        assert abc[i] == c[i - |a| - |b|];
      }
    }
  }

  /** The assignments of a table, entry by entry. */
  lemma PathValuesEntries(obj: Value, prefix: string, table: seq<(string, string)>)
    requires PathValues(obj, prefix, table).Ok?
    ensures |PathValues(obj, prefix, table).value| == |table|
    ensures forall i :: 0 <= i < |table| ==>
      PathValues(obj, prefix, table).value[i] == (prefix + table[i].0, GetObjValue(obj, table[i].1).value)
  {
    var fs := PathValues(obj, prefix, table).value;
    assert |Keys(fs)| == |table|;
    forall i | 0 <= i < |table|
      ensures fs[i] == (prefix + table[i].0, GetObjValue(obj, table[i].1).value)
    {
      assert Keys(fs)[i] == fs[i].0;
    }
  }

  /** The keys of four entries. */
  lemma FourKeys(fs: Fields)
    requires |fs| == 4
    ensures Keys(fs) == [fs[0].0, fs[1].0, fs[2].0, fs[3].0]
  {
  }

  /** The keys of five entries. */
  lemma FiveKeys(fs: Fields)
    requires |fs| == 5
    ensures Keys(fs) == [fs[0].0, fs[1].0, fs[2].0, fs[3].0, fs[4].0]
  {
  }

  /** Assigning the four leading columns and then clash-free columns to
      the head keeps the five leading entries in front. */
  lemma LeadingEntriesStay(vs: Fields)
    requires |vs| >= 4 && KeysOutside(vs[4..])
    requires Keys(vs[..4]) == ["fio_version", "jobname", "groupid", "error"]
    ensures |PutAll(Head, vs)| >= 5 && PutAll(Head, vs)[..5] == Head + vs[..4]
  {
    var lead, later := vs[..4], vs[4..];
    assert Keys(Head) == ["terse_version"];
    assert forall i :: 0 <= i < 4 ==> lead[i].0 == Keys(lead)[i];
    PutAllFresh(Head, lead);
    var known := Head + lead;
    KeysConcat(Head, lead);
    assert Keys(known) == ["terse_version", "fio_version", "jobname", "groupid", "error"];
    forall i | 0 <= i < |later| ensures later[i].0 !in Keys(known) {
      assert Outside(later[i].0);
    }
    PutAllKeepsPrefix(known, [], later);
    PutAllConcat(Head, lead, later);
    assert lead + later == vs;
    assert known + [] == known;
    assert (known + PutAll([], later))[..5] == known;
  }

  /** Every record starts with the terse version, the fio version, the job
      name, the group id and the error code, in that order, as the terse
      format does, each holding the value its path reads; every later
      column is assigned after them. */
  lemma RecordLeadingColumns(data: Fields, job: Value, diskList: Value, layout: Layout)
    requires LeadingLayout(layout)
    requires Record(data, job, diskList, layout).Ok?
    ensures var r := Record(data, job, diskList, layout).value;
      && |r| >= 5
      && r[0] == ("terse_version", Str("??"))
      && r[1].0 == "fio_version" && GetObjValue(Object(data), layout.top[0].1) == Ok(r[1].1)
      && r[2].0 == "jobname" && GetObjValue(job, layout.job[0].1) == Ok(r[2].1)
      && r[3].0 == "groupid" && GetObjValue(job, layout.job[1].1) == Ok(r[3].1)
      && r[4].0 == "error" && GetObjValue(job, layout.job[2].1) == Ok(r[4].1)
  {
    RecordValuesSplit(data, job, diskList, layout);
    var vs := RecordValues(data, job, diskList, layout).value;
    FourKeys(vs[..4]);
    LeadingEntriesStay(vs);
    var r := Record(data, job, diskList, layout).value;
    assert r == PutAll(Head, vs);
    assert forall k :: 0 <= k < 5 ==> r[k] == r[..5][k];
    assert forall k :: 1 <= k < 5 ==> (Head + vs[..4])[k] == vs[k - 1];
  }

  // ---------------------------------------------------------------------
  // Disk columns: every disk writes the same keys, so the last disk wins.

  /** Headers of a path table that are pairwise distinct. */
  predicate DistinctHeaders(table: seq<(string, string)>)
  {
    forall i, j :: 0 <= i < j < |table| ==> table[i].0 != table[j].0
  }

  /** Without a prefix, the assignments of a table use its headers as keys,
      which are then pairwise distinct. */
  lemma UnprefixedEntries(obj: Value, table: seq<(string, string)>)
    requires PathValues(obj, "", table).Ok? && DistinctHeaders(table)
    ensures |PathValues(obj, "", table).value| == |table|
    ensures forall i :: 0 <= i < |table| ==>
      PathValues(obj, "", table).value[i] == (table[i].0, GetObjValue(obj, table[i].1).value)
    ensures forall i, j :: 0 <= i < j < |table| ==>
      PathValues(obj, "", table).value[i].0 != PathValues(obj, "", table).value[j].0
  {
    PathValuesEntries(obj, "", table);
    forall i | 0 <= i < |table| ensures "" + table[i].0 == table[i].0 {
    }
  }

  /** After the disk assignments, the disk columns are the ones the first
      disk created, and each holds the value of the last disk. */
  lemma {:induction false} DiskColumnsFromLastDisk(d: Fields, disks: seq<Value>, table: seq<(string, string)>)
    requires |disks| > 0 && DisksValues(disks, table).Ok? && PathValues(disks[0], "", table).Ok?
    requires DistinctHeaders(table)
    ensures Keys(PutAll(d, DisksValues(disks, table).value)) == Keys(PutAll(d, PathValues(disks[0], "", table).value))
    ensures forall j :: 0 <= j < |table| ==>
      Find(PutAll(d, DisksValues(disks, table).value), table[j].0) == Some(GetObjValue(disks[|disks| - 1], table[j].1).value)
    decreases |disks|
  {
    var n := |disks| - 1;
    var init := disks[..n];
    var before := DisksValues(init, table).value;
    var last := PathValues(disks[n], "", table).value;
    var all := DisksValues(disks, table).value;
    assert all == before + last;
    PutAllConcat(d, before, last);
    assert PutAll(d, all) == PutAll(PutAll(d, before), last);
    UnprefixedEntries(disks[n], table);
    forall j | 0 <= j < |table|
      ensures Find(PutAll(d, all), table[j].0) == Some(GetObjValue(disks[n], table[j].1).value)
    {
      PutAllFind(PutAll(d, before), last, j);
    }
    if n == 0 {
      assert before == [];
    } else {
      assert init[0] == disks[0];
      DiskColumnsFromLastDisk(d, init, table);
      assert init[0] == disks[0];
      var first := PathValues(disks[0], "", table).value;
      UnprefixedEntries(disks[0], table);
      PutAllHasKeys(d, first);
      PutAllKnownKeys(PutAll(d, before), last);
    }
  }

  /** The later assignments end with the disk assignments. */
  lemma LaterThenDisks(job: Value, diskList: Value, layout: Layout, disks: seq<Value>) returns (mid: Fields)
    requires LaterValues(job, diskList, layout).Ok?
    requires Iterate(diskList) == Ok(disks)
    ensures DisksValues(disks, layout.disk).Ok?
    ensures LaterValues(job, diskList, layout).value == mid + DisksValues(disks, layout.disk).value
  {
    var dirs := DirsValues(AvailDirs(job, layout.dirs), layout.direction).value;
    var rest := PathValues(job, "", layout.rest).value;
    mid := dirs + rest;
  }

  /** A record is the head with the assignments before the disks applied,
      then the disk assignments. */
  lemma RecordThenDisks(data: Fields, job: Value, diskList: Value, layout: Layout, disks: seq<Value>)
    returns (front: Fields)
    requires Record(data, job, diskList, layout).Ok?
    requires Iterate(diskList) == Ok(disks)
    ensures DisksValues(disks, layout.disk).Ok?
    ensures Record(data, job, diskList, layout).value == PutAll(PutAll(Head, front), DisksValues(disks, layout.disk).value)
  {
    var top := PathValues(Object(data), "", layout.top).value;
    var ids := PathValues(job, "", layout.job).value;
    var later := LaterValues(job, diskList, layout).value;
    assert RecordValues(data, job, diskList, layout) == Ok(top + ids + later);
    var mid := LaterThenDisks(job, diskList, layout, disks);
    var du := DisksValues(disks, layout.disk).value;
    front := top + ids + mid;
    FieldsAssoc(top + ids, mid, du);
    PutAllConcat(Head, front, du);
  }

  /** The disk columns of a record hold the values of the last disk listed
      under `disk_util`. */
  lemma RecordDiskColumns(data: Fields, job: Value, diskList: Value, layout: Layout, disks: seq<Value>)
    requires DistinctHeaders(layout.disk)
    requires Record(data, job, diskList, layout).Ok?
    requires Iterate(diskList) == Ok(disks) && |disks| > 0
    ensures forall j :: 0 <= j < |layout.disk| ==>
      GetObjValue(disks[|disks| - 1], layout.disk[j].1).Ok? &&
      Find(Record(data, job, diskList, layout).value, layout.disk[j].0) ==
      Some(GetObjValue(disks[|disks| - 1], layout.disk[j].1).value)
  {
    var front := RecordThenDisks(data, job, diskList, layout, disks);
    DisksFirstOk(disks, layout.disk);
    DiskColumnsFromLastDisk(PutAll(Head, front), disks, layout.disk);
  }

  lemma FioDiskHeadersDistinct()
    ensures DistinctHeaders(FioLayout.disk)
  {
  }

  // ---------------------------------------------------------------------
  // The terse text: a header line, then one line of values per record.

  /** The header line of a record: its keys joined by ';'. */
  function Header(rec: Fields): string
  {
    Join(Keys(rec), ';')
  }

  /** The value line of a record: its values, each shown by `show`, joined
      by ';'. */
  function Line(rec: Fields, show: Value -> string): string
  {
    Join(seq(|rec|, i requires 0 <= i < |rec| => show(rec[i].1)), ';')
  }

  /** The value lines of the records, in order. */
  function Lines(records: seq<Fields>, show: Value -> string): (r: seq<string>)
    ensures |r| == |records|
  {
    seq(|records|, i requires 0 <= i < |records| => Line(records[i], show))
  }

  /** The text of the records as a whole: nothing without records; else the
      header of the first record followed by the value lines, separated by
      newlines. */
  function TerseText(records: seq<Fields>, show: Value -> string): string
  {
    if |records| == 0 then "" else Join([Header(records[0])] + Lines(records, show), '\n')
  }

  /** The text is empty exactly when there are no records: a single record
      already gives a header line, a newline and a value line. */
  lemma TextEmptyIffNoRecords(records: seq<Fields>, show: Value -> string)
    ensures TerseText(records, show) == "" <==> |records| == 0
  {
    if |records| > 0 {
      var xs := [Header(records[0])] + Lines(records, show);
      assert TerseText(records, show) == xs[0] + ['\n'] + Join(xs[1..], '\n');
    }
  }

  lemma LinesSnoc(records: seq<Fields>, show: Value -> string, i: nat)
    requires i < |records|
    ensures Lines(records[..i + 1], show) == Lines(records[..i], show) + [Line(records[i], show)]
  {
  }

  /** One more record adds a newline and its value line. */
  lemma TerseTextSnoc(records: seq<Fields>, show: Value -> string, i: nat)
    requires i < |records|
    ensures i == 0 ==> TerseText(records[..i + 1], show) == Header(records[0]) + "\n" + Line(records[0], show)
    ensures i > 0 ==> TerseText(records[..i], show) != ""
    ensures i > 0 ==> TerseText(records[..i + 1], show) == TerseText(records[..i], show) + "\n" + Line(records[i], show)
  {
    LinesSnoc(records, show, i);
    var h := [Header(records[0])];
    var before := Lines(records[..i], show);
    var line := Line(records[i], show);
    if i == 0 {
      assert before == [];
      var xs := [Header(records[0]), line];
      assert h + (before + [line]) == xs;
      assert xs[1..] == [line];
      assert records[..1][0] == records[0];
      assert Join(xs, '\n') == xs[0] + ['\n'] + Join([line], '\n');
    } else {
      assert records[..i][0] == records[..i + 1][0] == records[0];
      JoinAppend(h + before, [line], '\n');
      assert h + (before + [line]) == (h + before) + [line];
      var xs := h + before;
      assert Join(xs, '\n') == xs[0] + ['\n'] + Join(xs[1..], '\n');
    }
  }

  /** The loop of `terse()`: the header is written while the text is
      still empty, then a newline and a value line per record. */
  method WriteText(records: seq<Fields>, show: Value -> string) returns (outStrg: string)
    ensures outStrg == TerseText(records, show)
  {
    outStrg := "";
    var i := 0;
    while i < |records|
      invariant 0 <= i <= |records|
      invariant outStrg == TerseText(records[..i], show)
    {
      TerseTextSnoc(records, show, i);
      if outStrg == "" {
        outStrg := outStrg + Header(records[i]);
      }
      outStrg := outStrg + "\n";
      outStrg := outStrg + Line(records[i], show);
      i := i + 1;
    }
    assert records[..i] == records;
  }

  /** The text `terse()` returns, or the error raised while collecting the
      records. */
  function TerseOutput(data: Fields, show: Value -> string): Result<string>
  {
    var records :- TerseRecords(data, FioLayout);
    Ok(TerseText(records, show))
  }

  /** `terse()`: the records of `terseList()` as text; the header comes
      from the first record only, `show` renders one value as `str` does. */
  method Terse(data: Fields, show: Value -> string) returns (r: Result<string>)
    ensures r == TerseOutput(data, show)
  {
    var records :- TerseList(data);
    var text := WriteText(records, show);
    return Ok(text);
  }

  /** Splitting the text at newlines gives the header and one line per
      record, when no key and no shown value holds a newline. */
  lemma TerseTextLines(records: seq<Fields>, show: Value -> string)
    requires |records| > 0
    requires '\n' !in Header(records[0])
    requires forall i :: 0 <= i < |records| ==> '\n' !in Line(records[i], show)
    ensures Split(TerseText(records, show), '\n') == [Header(records[0])] + Lines(records, show)
  {
    var xs := [Header(records[0])] + Lines(records, show);
    forall i | 0 <= i < |xs| ensures '\n' !in xs[i] {
      if i > 0 {
        assert xs[i] == Line(records[i - 1], show);
      }
    }
    SplitJoin(xs, '\n');
  }

  /** A record with the header record's keys has a value line with as many
      `;`-separated fields as the header has names, one per key, when no key
      and no shown value holds a `;`. */
  lemma LineMatchesHeader(first: Fields, rec: Fields, show: Value -> string)
    requires |first| > 0 && Keys(rec) == Keys(first)
    requires forall k :: 0 <= k < |first| ==> ';' !in first[k].0
    requires forall k :: 0 <= k < |rec| ==> ';' !in show(rec[k].1)
    ensures Split(Header(first), ';') == Keys(first)
    ensures |Split(Line(rec, show), ';')| == |Split(Header(first), ';')| == |first|
  {
    var names := Keys(first);
    assert forall k :: 0 <= k < |names| ==> names[k] == first[k].0;
    SplitJoin(names, ';');
    var vals := seq(|rec|, i requires 0 <= i < |rec| => show(rec[i].1));
    SplitJoin(vals, ';');
  }

  /** When every record has the first record's keys, every value line has
      as many fields as the header line. */
  lemma SameFieldCount(records: seq<Fields>, show: Value -> string)
    requires |records| > 0 && |records[0]| > 0
    requires forall i :: 0 <= i < |records| ==> Keys(records[i]) == Keys(records[0])
    requires forall k :: 0 <= k < |records[0]| ==> ';' !in records[0][k].0
    requires forall i, k :: 0 <= i < |records| && 0 <= k < |records[i]| ==> ';' !in show(records[i][k].1)
    ensures forall i :: 0 <= i < |records| ==>
      |Split(Lines(records, show)[i], ';')| == |Split(Header(records[0]), ';')|
  {
    forall i | 0 <= i < |records|
      ensures |Split(Lines(records, show)[i], ';')| == |Split(Header(records[0]), ';')|
    {
      LineMatchesHeader(records[0], records[i], show);
    }
  }

  /** The names of the five columns every record starts with. */
  const LeadingNames: seq<string> := ["terse_version", "fio_version", "jobname", "groupid", "error"]

  /** The header line of a record whose first columns are the leading five
      starts with their names joined by ';'. */
  lemma HeaderStartsWithLeading(rec: Fields)
    requires |rec| >= 5
    requires Keys(rec[..5]) == LeadingNames
    ensures IsPrefix(Join(LeadingNames, ';'), Header(rec))
  {
    var lead := Join(LeadingNames, ';');
    if |rec| == 5 {
      assert rec[..5] == rec;
    } else {
      assert Keys(rec) == Keys(rec[..5]) + Keys(rec[5..]);
      JoinAppend(Keys(rec[..5]), Keys(rec[5..]), ';');
      var h := lead + [';'] + Join(Keys(rec[5..]), ';');
      assert Header(rec) == h;
      assert h[..|lead|] == lead;
    }
  }

  /** The header of every record of the fio layout starts with the names
      of the leading columns. */
  lemma RecordHeaderLeads(data: Fields, job: Value, diskList: Value)
    requires Record(data, job, diskList, FioLayout).Ok?
    ensures IsPrefix(Join(LeadingNames, ';'), Header(Record(data, job, diskList, FioLayout).value))
  {
    FioLayoutLeads();
    HeaderLeads(data, job, diskList, FioLayout);
  }

  lemma HeaderLeads(data: Fields, job: Value, diskList: Value, layout: Layout)
    requires LeadingLayout(layout)
    requires Record(data, job, diskList, layout).Ok?
    ensures IsPrefix(Join(LeadingNames, ';'), Header(Record(data, job, diskList, layout).value))
  {
    RecordLeadingKeys(data, job, diskList, layout);
    HeaderStartsWithLeading(Record(data, job, diskList, layout).value);
  }

  lemma RecordLeadingKeys(data: Fields, job: Value, diskList: Value, layout: Layout)
    requires LeadingLayout(layout)
    requires Record(data, job, diskList, layout).Ok?
    ensures |Record(data, job, diskList, layout).value| >= 5
    ensures Keys(Record(data, job, diskList, layout).value[..5]) == LeadingNames
  {
    RecordLeadingColumns(data, job, diskList, layout);
    FiveKeys(Record(data, job, diskList, layout).value[..5]);
  }

  /** The text starts with whatever the first record's header starts with. */
  lemma TextStartsWithHeader(records: seq<Fields>, show: Value -> string, p: string)
    requires |records| > 0 && IsPrefix(p, Header(records[0]))
    ensures IsPrefix(p, TerseText(records, show))
  {
    var h := Header(records[0]);
    var xs := [h] + Lines(records, show);
    assert TerseText(records, show) == h + ['\n'] + Join(xs[1..], '\n');
    assert (h + ['\n'] + Join(xs[1..], '\n'))[..|p|] == h[..|p|];
  }

  /** The text of `terse()` on any input with jobs starts with the names of
      the leading columns: `terse_version;fio_version;jobname;groupid;error`. */
  lemma TerseTextStartsWithLeading(data: Fields, records: seq<Fields>, show: Value -> string)
    requires TerseRecords(data, FioLayout) == Ok(records) && |records| > 0
    ensures IsPrefix(Join(LeadingNames, ';'), TerseText(records, show))
  {
    var diskList := Get(Object(data), "disk_util").value;
    var jobs := Iterate(Get(Object(data), "jobs").value).value;
    RecordsOnePerJob(jobs, RecordOf(data, diskList, FioLayout));
    assert Record(data, jobs[0], diskList, FioLayout) == Ok(records[0]);
    RecordHeaderLeads(data, jobs[0], diskList);
    TextStartsWithHeader(records, show, Join(LeadingNames, ';'));
  }
}
