// The latency-bucket lines of `_normalLatBuckets`: for each of the scales
// ns, us, ms and s whose table `latency_<scale>` the job has, the buckets
// whose percentage is above zero, in the table's order; a scale with no such
// bucket prints nothing.

module LatBuckets {
  import opened Strings
  import opened Json

  /** One printed line: the scale and its kept `(bucket, percentage)` entries. */
  datatype LatLine = LatLine(scale: string, buckets: Fields)

  const LatScales: seq<string> := ["ns", "us", "ms", "s"]

  /** The entries of one table whose percentage is above zero, in order;
      comparing a non-number with `0.0` raises TypeError. */
  function Kept(buckets: Fields): (r: Result<Fields>)
    ensures r.Ok? <==> forall i :: 0 <= i < |buckets| ==> Num(buckets[i].1).Some?
    ensures r.Ok? ==> |r.value| <= |buckets|
    ensures r.Err? ==> r.error == TypeError
    decreases |buckets|
  {
    if |buckets| == 0 then Ok([])
    else
      var n := |buckets| - 1;
      var before :- Kept(buckets[..n]);
      var pct :- Number(buckets[n].1);
      if pct > 0.0 then Ok(before + [buckets[n]]) else Ok(before)
  }

  /** An entry is kept exactly when it is in the table with a positive percentage. */
  lemma {:induction false} KeptMembers(buckets: Fields, e: (string, Value))
    requires Kept(buckets).Ok?
    ensures e in Kept(buckets).value <==> e in buckets && Num(e.1).value > 0.0
    decreases |buckets|
  {
    if |buckets| > 0 {
      var n := |buckets| - 1;
      assert buckets == buckets[..n] + [buckets[n]];
      KeptMembers(buckets[..n], e);
    }
  }

  /** One entry is kept alone when its percentage is above zero, dropped
      when it is not, and raises TypeError when it is not a number. */
  lemma KeptOne(e: (string, Value))
    ensures Num(e.1).None? ==> Kept([e]) == Err(TypeError)
    ensures Num(e.1).Some? && Num(e.1).value > 0.0 ==> Kept([e]) == Ok([e])
    ensures Num(e.1).Some? && Num(e.1).value <= 0.0 ==> Kept([e]) == Ok([])
  {
    assert [e][..0] == [];
    assert [] + [e] == [e];
  }

  /** The filter works entry by entry in table order: the entries kept from
      `a + b` are those kept from `a` followed by those kept from `b`. */
  lemma {:induction false} KeptAppend(a: Fields, b: Fields)
    ensures Kept(a).Ok? && Kept(b).Ok? ==> Kept(a + b) == Ok(Kept(a).value + Kept(b).value)
    ensures Kept(a).Err? || Kept(b).Err? ==> Kept(a + b) == Err(TypeError)
    decreases |b|
  {
    if |b| == 0 {
      assert a + b == a;
      if Kept(a).Ok? {
        assert Kept(a).value + [] == Kept(a).value;
      }
    } else {
      var n := |b| - 1;
      KeptAppend(a, b[..n]);
      var ab := a + b;
      assert ab[..|ab| - 1] == a + b[..n];
      assert ab[|ab| - 1] == b[n];
      assert b[..n] == b[..|b| - 1];
      if Kept(a).Ok? && Kept(b).Ok? {
        var x, y := Kept(a).value, Kept(b[..n]).value;
        if Num(b[n].1).value > 0.0 {
          assert Kept(b).value == y + [b[n]];
          assert (x + y) + [b[n]] == x + (y + [b[n]]);
        }
      }
    }
  }

  /** Nothing is kept exactly when no percentage is above zero. */
  lemma KeptEmptyIff(buckets: Fields)
    requires Kept(buckets).Ok?
    ensures |Kept(buckets).value| == 0 <==> forall i :: 0 <= i < |buckets| ==> Num(buckets[i].1).value <= 0.0
  {
    var kept := Kept(buckets).value;
    if |kept| > 0 {
      KeptMembers(buckets, kept[0]);
      var i :| 0 <= i < |buckets| && buckets[i] == kept[0];
    }
    if exists i :: 0 <= i < |buckets| && Num(buckets[i].1).value > 0.0 {
      var i :| 0 <= i < |buckets| && Num(buckets[i].1).value > 0.0;
      KeptMembers(buckets, buckets[i]);
    }
  }

  lemma KeptSnoc(buckets: Fields, i: nat)
    requires i < |buckets|
    ensures Kept(buckets[..i + 1]) ==
      var before :- Kept(buckets[..i]);
      var pct :- Number(buckets[i].1);
      if pct > 0.0 then Ok(before + [buckets[i]]) else Ok(before)
  {
    assert buckets[..i + 1][..i] == buckets[..i];
  }

  lemma {:induction false} KeptErr(buckets: Fields, k: nat)
    requires k <= |buckets| && Kept(buckets[..k]).Err?
    ensures Kept(buckets) == Kept(buckets[..k])
    decreases |buckets| - k
  {
    if k < |buckets| {
      KeptSnoc(buckets, k);
      KeptErr(buckets, k + 1);
    } else {
      assert buckets[..k] == buckets;
    }
  }

  /** The inner loop of `_normalLatBuckets` over one table's entries. */
  method PositiveBuckets(buckets: Fields) returns (r: Result<Fields>)
    ensures r == Kept(buckets)
  {
    var lBkts: Fields := [];
    for i := 0 to |buckets|
      invariant Kept(buckets[..i]) == Ok(lBkts)
    {
      KeptSnoc(buckets, i);
      var pct := Number(buckets[i].1);
      if pct.Err? {
        KeptErr(buckets, i + 1);
        return Err(pct.error);
      }
      if pct.value > 0.0 {
        lBkts := lBkts + [buckets[i]];
      }
    }
    assert buckets[..|buckets|] == buckets;
    return Ok(lBkts);
  }

  /** The line for one scale: none when the job has no table for it or
      keeps no bucket of it; a table that is not an object has no `items()`. */
  function ScaleLine(job: Fields, scale: string): (r: Result<Option<LatLine>>)
    ensures "latency_" + scale !in Keys(job) ==> r == Ok(None)
    ensures r.Ok? && r.value.Some? ==> r.value.value.scale == scale && |r.value.value.buckets| > 0
    ensures r.Err? ==> r.error == TypeError
  {
    var key := "latency_" + scale;
    if key !in Keys(job) then Ok(None)
    else
      match Find(job, key).value
      case Object(table) =>
        var kept :- Kept(table);
        if |kept| > 0 then Ok(Some(LatLine(scale, kept))) else Ok(None)
      case _ => Err(TypeError)
  }

  /** A numeric table gives a line exactly when some bucket is above zero,
      and the line holds exactly those buckets. */
  lemma ScaleLineIff(job: Fields, scale: string, table: Fields)
    requires Find(job, "latency_" + scale) == Some(Object(table))
    requires forall i :: 0 <= i < |table| ==> Num(table[i].1).Some?
    ensures ScaleLine(job, scale).Ok?
    ensures ScaleLine(job, scale).value.Some? <==> exists i :: 0 <= i < |table| && Num(table[i].1).value > 0.0
    ensures ScaleLine(job, scale).value.Some? ==>
      forall e :: e in ScaleLine(job, scale).value.value.buckets <==> e in table && Num(e.1).value > 0.0
  {
    KeptEmptyIff(table);
    forall e {
      KeptMembers(table, e);
    }
  }

  /** A line carries the kept buckets themselves, so in the table's order
      (`KeptAppend`), and the table's first non-numeric bucket fails it. */
  lemma ScaleLineKept(job: Fields, scale: string, table: Fields)
    requires Find(job, "latency_" + scale) == Some(Object(table))
    ensures ScaleLine(job, scale).Ok? <==> Kept(table).Ok?
    ensures ScaleLine(job, scale).Ok? && ScaleLine(job, scale).value.Some? ==>
      ScaleLine(job, scale).value.value.buckets == Kept(table).value
  {
  }

  /** The lines for the scales, in order; the first failure is the error. */
  function LatLines(job: Fields, scales: seq<string>): (r: Result<seq<LatLine>>)
    ensures r.Ok? ==> |r.value| <= |scales|
    ensures r.Err? ==> r.error == TypeError
    decreases |scales|
  {
    if |scales| == 0 then Ok([])
    else
      var n := |scales| - 1;
      var before :- LatLines(job, scales[..n]);
      var line :- ScaleLine(job, scales[n]);
      match line
      case Some(l) => Ok(before + [l])
      case None => Ok(before)
  }

  /** Every line belongs to one of the scales, and a scale the job has no
      table for has no line. */
  lemma {:induction false} LatLinesScales(job: Fields, scales: seq<string>)
    requires LatLines(job, scales).Ok?
    ensures forall l :: l in LatLines(job, scales).value ==>
      l.scale in scales && "latency_" + l.scale in Keys(job) && |l.buckets| > 0
    decreases |scales|
  {
    if |scales| > 0 {
      var n := |scales| - 1;
      LatLinesScales(job, scales[..n]);
      assert scales == scales[..n] + [scales[n]];
    }
  }

  /** A job without any latency table has no latency lines. */
  lemma {:induction false} NoTablesNoLines(job: Fields, scales: seq<string>)
    requires forall s :: s in scales ==> "latency_" + s !in Keys(job)
    ensures LatLines(job, scales) == Ok([])
    decreases |scales|
  {
    if |scales| > 0 {
      var n := |scales| - 1;
      assert scales[n] in scales;
      NoTablesNoLines(job, scales[..n]);
    }
  }

  lemma LatLinesSnoc(job: Fields, scales: seq<string>, i: nat)
    requires i < |scales|
    ensures LatLines(job, scales[..i + 1]) ==
      var before :- LatLines(job, scales[..i]);
      var line :- ScaleLine(job, scales[i]);
      match line
      case Some(l) => Ok(before + [l])
      case None => Ok(before)
  {
    assert scales[..i + 1][..i] == scales[..i];
  }

  lemma {:induction false} LatLinesErr(job: Fields, scales: seq<string>, k: nat)
    requires k <= |scales| && LatLines(job, scales[..k]).Err?
    ensures LatLines(job, scales) == LatLines(job, scales[..k])
    decreases |scales| - k
  {
    if k < |scales| {
      LatLinesSnoc(job, scales, k);
      LatLinesErr(job, scales, k + 1);
    } else {
      assert scales[..k] == scales;
    }
  }

  /** `_normalLatBuckets`: the outer loop over the scales, the inner one
      over a table's entries. */
  method NormalLatBuckets(job: Fields, scales: seq<string>) returns (r: Result<seq<LatLine>>)
    ensures r == LatLines(job, scales)
  {
    var lines: seq<LatLine> := [];
    for i := 0 to |scales|
      invariant LatLines(job, scales[..i]) == Ok(lines)
    {
      LatLinesSnoc(job, scales, i);
      var key := "latency_" + scales[i];
      if key in Keys(job) {
        var table := Find(job, key).value;
        if !table.Object? {
          assert ScaleLine(job, scales[i]) == Err(TypeError);
          LatLinesErr(job, scales, i + 1);
          return Err(TypeError);
        }
        var kept := PositiveBuckets(table.fields);
        if kept.Err? {
          LatLinesErr(job, scales, i + 1);
          return Err(kept.error);
        }
        if |kept.value| > 0 {
          lines := lines + [LatLine(scales[i], kept.value)];
        }
      }
    }
    assert scales[..|scales|] == scales;
    return Ok(lines);
  }

  /** `"{bkt}={pct:.2f}%"`, `show` rendering the percentage. */
  function BucketText(e: (string, Value), show: Value -> string): string
  {
    e.0 + "=" + show(e.1) + "%"
  }

  /** The printed line: the scale right-aligned in two columns, then the
      kept buckets joined by ", ". */
  function LatLineText(l: LatLine, show: Value -> string): string
  {
    var scale := if |l.scale| < 2 then " " + l.scale else l.scale;
    "    lat (" + scale + "ec)  : " + JoinStr(seq(|l.buckets|, i requires 0 <= i < |l.buckets| => BucketText(l.buckets[i], show)), ", ")
  }
}
