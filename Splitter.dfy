// The stream splitter (`FioJsonFile._splitJsonNormal`): one pass over the
// lines of the input file that routes every line either to the JSON buffer
// or to the "normal" (non-JSON) buffer, and notes whether any non-JSON line
// looks like a legacy per-job status line.

module Splitter {
  import opened Strings
  import opened Json

  /** The bare-brace lines that open and close the embedded JSON document. */
  const OpenBrace: string := "{\n"
  const CloseBrace: string := "}\n"

  /** What the regular expression `: \(groupid=` searches for. */
  const StatusPattern: string := ": (groupid="

  predicate IsBrace(line: string)
  {
    line == OpenBrace || line == CloseBrace
  }

  /** The loop state: which buffer is current, both buffers as lists of
      lines, and the status-line flag. */
  datatype SplitState = SplitState(inJson: bool, json: seq<string>, normal: seq<string>, status: bool)

  const Start := SplitState(false, [], [], false)

  /** One iteration of the splitting loop. */
  function Step(st: SplitState, line: string): SplitState
  {
    if line == OpenBrace then st.(inJson := true, json := st.json + [line])
    else if line == CloseBrace then st.(inJson := false, json := st.json + [line])
    else if !st.inJson && Contains(line, StatusPattern) then st.(normal := st.normal + [line], status := true)
    else if st.inJson then st.(json := st.json + [line])
    else st.(normal := st.normal + [line])
  }

  /** The state after the loop has consumed `lines`. */
  function Run(lines: seq<string>): SplitState
  {
    if |lines| == 0 then Start else Step(Run(lines[..|lines| - 1]), lines[|lines| - 1])
  }

  /** The text a buffer holds: its lines written one after the other. */
  function Concat(lines: seq<string>): string
  {
    if |lines| == 0 then "" else Concat(lines[..|lines| - 1]) + lines[|lines| - 1]
  }

  /** What the splitter hands back: both buffers and the status-line flag. */
  datatype SplitOutput = SplitOutput(json: seq<string>, normal: seq<string>, containsStatusLines: bool)

  method SplitJsonNormal(path: string, lines: seq<string>) returns (r: Result<SplitOutput>)
    ensures r.Err? <==> Concat(Run(lines).json) == ""
    ensures r.Err? ==> r.error == NoJsonData(path)
    ensures r.Ok? ==> r.value == SplitOutput(Run(lines).json, Run(lines).normal, Run(lines).status)
  {
    var inJson := false;
    var json: seq<string> := [];
    var normal: seq<string> := [];
    var status := false;
    for i := 0 to |lines|
      invariant SplitState(inJson, json, normal, status) == Run(lines[..i])
    {
      assert lines[..i + 1][..i] == lines[..i];
      var line := lines[i];
      if line == OpenBrace {
        inJson := true;
        json := json + [line];
      } else if line == CloseBrace {
        json := json + [line];
        inJson := false;
      } else if !inJson && Contains(line, StatusPattern) {
        status := true;
        normal := normal + [line];
      } else if inJson {
        json := json + [line];
      } else {
        normal := normal + [line];
      }
    }
    assert lines[..|lines|] == lines;
    if Concat(json) == "" {
      r := Err(NoJsonData(path));
    } else {
      r := Ok(SplitOutput(json, normal, status));
    }
  }

  // ---------------------------------------------------------------------
  // Routing: where each line goes.

  /** Whether the JSON buffer is current when line `i` is read. */
  predicate Active(lines: seq<string>, i: nat)
    requires i <= |lines|
  {
    Run(lines[..i]).inJson
  }

  /** Whether line `i` is written to the JSON buffer. */
  predicate ToJson(lines: seq<string>, i: nat)
    requires i < |lines|
  {
    IsBrace(lines[i]) || Active(lines, i)
  }

  function Routes(lines: seq<string>): (route: seq<bool>)
    ensures |route| == |lines|
    ensures forall i :: 0 <= i < |lines| ==> route[i] == ToJson(lines, i)
  {
    seq(|lines|, i requires 0 <= i < |lines| => ToJson(lines, i))
  }

  /** The lines among the first `k` whose destination is `toJson`, in order. */
  function Pick(lines: seq<string>, k: nat, toJson: bool): seq<string>
    requires k <= |lines|
  {
    if k == 0 then []
    else Pick(lines, k - 1, toJson) + (if ToJson(lines, k - 1) == toJson then [lines[k - 1]] else [])
  }

  /** Interleaves two buffers, taking the next line of `a` where `route`
      says true and the next line of `b` where it says false. */
  function Merge(route: seq<bool>, a: seq<string>, b: seq<string>): seq<string>
  {
    if |route| == 0 then []
    else if route[|route| - 1] then
      (if |a| == 0 then [] else Merge(route[..|route| - 1], a[..|a| - 1], b) + [a[|a| - 1]])
    else
      (if |b| == 0 then [] else Merge(route[..|route| - 1], a, b[..|b| - 1]) + [b[|b| - 1]])
  }

  /** After `k` lines the buffers hold exactly the lines routed to each. */
  lemma {:induction false} RunPicks(lines: seq<string>, k: nat)
    requires k <= |lines|
    ensures Run(lines[..k]).json == Pick(lines, k, true)
    ensures Run(lines[..k]).normal == Pick(lines, k, false)
  {
    if k > 0 {
      RunPicks(lines, k - 1);
      assert lines[..k][..k - 1] == lines[..k - 1];
    }
  }

  lemma MergePicks(lines: seq<string>, k: nat)
    requires k <= |lines|
    ensures Merge(Routes(lines)[..k], Pick(lines, k, true), Pick(lines, k, false)) == lines[..k]
  {
    PickFilter(lines, k);
    MergeFilter(Routes(lines)[..k], lines[..k]);
  }

  /** The lines of `xs` whose route is `toJson`, in order. */
  function Filter(route: seq<bool>, xs: seq<string>, toJson: bool): seq<string>
    requires |route| == |xs|
  {
    if |xs| == 0 then []
    else
      var n := |xs| - 1;
      Filter(route[..n], xs[..n], toJson) + (if route[n] == toJson then [xs[n]] else [])
  }

  /** The picks are the lines filtered along the routing. */
  lemma {:induction false} PickFilter(lines: seq<string>, k: nat)
    requires k <= |lines|
    ensures Pick(lines, k, true) == Filter(Routes(lines)[..k], lines[..k], true)
    ensures Pick(lines, k, false) == Filter(Routes(lines)[..k], lines[..k], false)
  {
    if k > 0 {
      PickFilter(lines, k - 1);
      var rs := Routes(lines);
      assert rs[..k][..k - 1] == rs[..k - 1];
      assert lines[..k][..k - 1] == lines[..k - 1];
      assert rs[..k][k - 1] == rs[k - 1] == ToJson(lines, k - 1);
    }
  }

  /** Interleaving the two filtered buffers along the routing gives back
      the lines. */
  lemma {:induction false} MergeFilter(route: seq<bool>, xs: seq<string>)
    requires |route| == |xs|
    ensures Merge(route, Filter(route, xs, true), Filter(route, xs, false)) == xs
  {
    if |xs| > 0 {
      var n := |xs| - 1;
      MergeFilter(route[..n], xs[..n]);
      var a, b := Filter(route[..n], xs[..n], true), Filter(route[..n], xs[..n], false);
      assert route == route[..n] + [route[n]];
      assert xs == xs[..n] + [xs[n]];
      if route[n] {
        assert Filter(route, xs, true) == a + [xs[n]] && Filter(route, xs, false) == b;
        assert route == route[..n] + [true];
        MergeJson(route[..n], a, b, xs[n]);
      } else {
        assert Filter(route, xs, true) == a && Filter(route, xs, false) == b + [xs[n]];
        assert route == route[..n] + [false];
        MergeNormal(route[..n], a, b, xs[n]);
      }
    }
  }

  /** A line routed to the JSON buffer comes next from that buffer. */
  lemma MergeJson(route: seq<bool>, a: seq<string>, b: seq<string>, x: string)
    ensures Merge(route + [true], a + [x], b) == Merge(route, a, b) + [x]
  {
    assert (route + [true])[..|route|] == route;
    assert (a + [x])[..|a|] == a;
  }

  /** A line routed to the normal buffer comes next from that buffer. */
  lemma MergeNormal(route: seq<bool>, a: seq<string>, b: seq<string>, x: string)
    ensures Merge(route + [false], a, b + [x]) == Merge(route, a, b) + [x]
  {
    assert (route + [false])[..|route|] == route;
    assert (b + [x])[..|b|] == b;
  }

  /** Every line lands in exactly one buffer, each buffer keeps the input
      order, and interleaving the two buffers along the routing gives back
      the input line for line. */
  lemma SplitPartition(lines: seq<string>)
    ensures |Run(lines).json| + |Run(lines).normal| == |lines|
    ensures Merge(Routes(lines), Run(lines).json, Run(lines).normal) == lines
  {
    RunPicks(lines, |lines|);
    MergePicks(lines, |lines|);
    PickSizes(lines, |lines|);
    assert lines[..|lines|] == lines;
    assert Routes(lines)[..|lines|] == Routes(lines);
  }

  lemma {:induction false} PickSizes(lines: seq<string>, k: nat)
    requires k <= |lines|
    ensures |Pick(lines, k, true)| + |Pick(lines, k, false)| == k
  {
    if k > 0 {
      PickSizes(lines, k - 1);
    }
  }

  /** Both brace lines always go to the JSON buffer. */
  lemma BracesGoToJson(lines: seq<string>, i: nat)
    requires i < |lines| && IsBrace(lines[i])
    ensures Routes(lines)[i]
    ensures lines[i] in Run(lines).json
  {
    RunPicks(lines, |lines|);
    assert lines[..|lines|] == lines;
    PickContains(lines, |lines|, i);
  }

  lemma {:induction false} PickContains(lines: seq<string>, k: nat, i: nat)
    requires i < k <= |lines|
    ensures lines[i] in Pick(lines, k, ToJson(lines, i))
  {
    if i < k - 1 {
      PickContains(lines, k - 1, i);
    }
  }

  // ---------------------------------------------------------------------
  // When the JSON buffer is current.

  /** Line `j` opens a block that no close-brace line has ended before line `i`. */
  ghost predicate OpenBlock(lines: seq<string>, j: int, i: int)
    requires i <= |lines|
  {
    0 <= j < i && lines[j] == OpenBrace && forall k :: j < k < i ==> lines[k] != CloseBrace
  }

  /** The JSON buffer is current exactly inside a `{` ... `}` block. */
  lemma {:induction false} ActiveIffOpenBlock(lines: seq<string>, i: nat)
    requires i <= |lines|
    ensures Active(lines, i) <==> exists j :: OpenBlock(lines, j, i)
  {
    if i > 0 {
      ActiveIffOpenBlock(lines, i - 1);
      assert lines[..i][..i - 1] == lines[..i - 1];
      var line := lines[i - 1];
      if line == OpenBrace {
        assert OpenBlock(lines, i - 1, i);
      } else if line == CloseBrace {
      } else {
        if exists j :: OpenBlock(lines, j, i) {
          var j :| OpenBlock(lines, j, i);
          assert OpenBlock(lines, j, i - 1);
        }
        var p := i - 1;
        if exists j :: OpenBlock(lines, j, p) {
          var j :| OpenBlock(lines, j, p);
          assert OpenBlock(lines, j, i);
        }
      }
    }
  }

  // ---------------------------------------------------------------------
  // The status-line flag.

  /** Line `i` is a non-JSON line that matches the status pattern. */
  ghost predicate StatusLineAt(lines: seq<string>, i: int)
  {
    0 <= i < |lines| && !ToJson(lines, i) && Contains(lines[i], StatusPattern)
  }

  lemma {:induction false} StatusPrefix(lines: seq<string>, k: nat)
    requires k <= |lines|
    ensures Run(lines[..k]).status <==> exists i :: 0 <= i < k && StatusLineAt(lines, i)
  {
    if k > 0 {
      StatusPrefix(lines, k - 1);
      assert lines[..k][..k - 1] == lines[..k - 1];
      var before := Run(lines[..k - 1]);
      assert Run(lines[..k]) == Step(before, lines[k - 1]);
      assert Active(lines, k - 1) == before.inJson;
      assert Run(lines[..k]).status <==> before.status || StatusLineAt(lines, k - 1);
      if Run(lines[..k]).status {
        if !StatusLineAt(lines, k - 1) {
          var i :| 0 <= i < k - 1 && StatusLineAt(lines, i);
        }
      }
      if exists i :: 0 <= i < k && StatusLineAt(lines, i) {
        var i :| 0 <= i < k && StatusLineAt(lines, i);
        if i < k - 1 {
          assert before.status;
        }
      }
    }
  }

  /** The flag is set exactly when some line outside every brace block
      (and not itself a brace line) contains `: (groupid=`. */
  lemma StatusFlagIff(lines: seq<string>)
    ensures Run(lines).status <==> exists i :: StatusLineAt(lines, i)
  {
    StatusPrefix(lines, |lines|);
    assert lines[..|lines|] == lines;
  }

  // ---------------------------------------------------------------------
  // The "contains no json data" failure.

  lemma {:induction false} ConcatEmpty(xs: seq<string>)
    ensures Concat(xs) == "" <==> forall i :: 0 <= i < |xs| ==> xs[i] == ""
  {
    if |xs| > 0 {
      ConcatEmpty(xs[..|xs| - 1]);
    }
  }

  lemma {:induction false} JsonEmptyPrefix(lines: seq<string>, k: nat)
    requires k <= |lines|
    ensures Run(lines[..k]).inJson ==> Run(lines[..k]).json != []
    ensures Run(lines[..k]).json == [] <==> forall i :: 0 <= i < k ==> !IsBrace(lines[i])
    ensures forall x :: x in Run(lines[..k]).json ==> x in lines
  {
    if k > 0 {
      JsonEmptyPrefix(lines, k - 1);
      assert lines[..k][..k - 1] == lines[..k - 1];
    }
  }

  /** For lines as a file reader yields them (none empty), the splitter
      fails exactly when no line is a bare `{` or `}` line. A lone `}` line
      is enough to make the JSON buffer non-empty. */
  lemma NoJsonIffNoBraceLine(lines: seq<string>)
    requires forall i :: 0 <= i < |lines| ==> lines[i] != ""
    ensures Concat(Run(lines).json) == "" <==> forall i :: 0 <= i < |lines| ==> !IsBrace(lines[i])
  {
    JsonEmptyPrefix(lines, |lines|);
    assert lines[..|lines|] == lines;
    var json := Run(lines).json;
    ConcatEmpty(json);
    if json != [] {
      assert json[0] in lines;
    }
  }
}
