// The issued-IO counters of `_normalJobStats`: for each direction of
// mixed, read, write, trim and sync that the job has and that reports a
// positive `total_ios`, its `total_ios`, `short_ios` and `drop_ios` are
// added to slot `index - 1` of three four-slot lists (slot 0 for mixed,
// so mixed and read share it). `_normalIssued` then prints the three lists,
// each joined by ','.

module Issued {
  import opened Strings
  import opened Json

  /** The counter lists `totals`, `shorts` and `dropped`. */
  datatype Counters = Counters(totals: seq<real>, shorts: seq<real>, dropped: seq<real>)

  predicate FourSlots(c: Counters)
  {
    |c.totals| == 4 && |c.shorts| == 4 && |c.dropped| == 4
  }

  const Zero: Counters := Counters([0.0, 0.0, 0.0, 0.0], [0.0, 0.0, 0.0, 0.0], [0.0, 0.0, 0.0, 0.0])

  /** The directions visited, in order; `lDirs` in the source. */
  const IssuedDirs: seq<string> := ["mixed", "read", "write", "trim", "sync"]

  /** The slot of the direction at position `idx`: one less, except that
      position 0 keeps slot 0. */
  function Slot(idx: nat): (k: nat)
    ensures idx > 0 ==> k == idx - 1
    ensures idx == 0 ==> k == 0
  {
    if idx > 0 then idx - 1 else idx
  }

  /** What direction `d` adds: nothing when the job lacks it or its
      `total_ios` is not positive, else its `(total_ios, short_ios,
      drop_ios)`. */
  function Contribution(job: Value, d: string): (r: Result<Option<(real, real, real)>>)
    ensures !Has(job, d) ==> r == Ok(None)
    ensures r.Ok? && r.value.Some? ==> Has(job, d) && r.value.value.0 > 0.0
    ensures r.Err? ==> LookupError(r.error)
  {
    if !Has(job, d) then Ok(None)
    else
      var dirObj := Get(job, d).value;
      var total :- Get(dirObj, "total_ios");
      var t :- Number(total);
      if t <= 0.0 then Ok(None)
      else
        var short :- Get(dirObj, "short_ios");
        var s :- Number(short);
        var drop :- Get(dirObj, "drop_ios");
        var dr :- Number(drop);
        Ok(Some((t, s, dr)))
  }

  /** A present direction with a positive `total_ios` and numeric
      `short_ios` and `drop_ios` adds exactly those three numbers. */
  lemma CountedWhenPositive(job: Value, d: string)
    requires Has(job, d)
    requires Get(Get(job, d).value, "total_ios").Ok? && Num(Get(Get(job, d).value, "total_ios").value).Some?
    requires Num(Get(Get(job, d).value, "total_ios").value).value > 0.0
    requires Get(Get(job, d).value, "short_ios").Ok? && Num(Get(Get(job, d).value, "short_ios").value).Some?
    requires Get(Get(job, d).value, "drop_ios").Ok? && Num(Get(Get(job, d).value, "drop_ios").value).Some?
    ensures Contribution(job, d) == Ok(Some((
      Num(Get(Get(job, d).value, "total_ios").value).value,
      Num(Get(Get(job, d).value, "short_ios").value).value,
      Num(Get(Get(job, d).value, "drop_ios").value).value)))
  {
  }

  /** What a contribution adds, zero when there is none. */
  function Gain(x: Option<(real, real, real)>): (real, real, real)
  {
    match x
    case Some(v) => v
    case None => (0.0, 0.0, 0.0)
  }

  /** The counters with a contribution added to slot `k`. */
  function Add(c: Counters, k: nat, x: Option<(real, real, real)>): (r: Counters)
    requires FourSlots(c) && k < 4
    ensures FourSlots(r)
  {
    var g := Gain(x);
    Counters(c.totals[k := c.totals[k] + g.0], c.shorts[k := c.shorts[k] + g.1], c.dropped[k := c.dropped[k] + g.2])
  }

  /** What each direction of the job adds, as a function of the direction. */
  function ContributionOf(job: Value): string -> Result<Option<(real, real, real)>>
  {
    d => Contribution(job, d)
  }

  /** The counters after the directions `dirs`, position by position, each
      adding what `part` says it adds; the first failing lookup is the
      error. */
  function Tally(dirs: seq<string>, part: string -> Result<Option<(real, real, real)>>): (r: Result<Counters>)
    requires |dirs| <= 5
    ensures r.Ok? ==> FourSlots(r.value)
  {
    if |dirs| == 0 then Ok(Zero)
    else
      var n := |dirs| - 1;
      var before :- Tally(dirs[..n], part);
      var x :- part(dirs[n]);
      Ok(Add(before, Slot(n), x))
  }

  lemma TallySnoc(dirs: seq<string>, part: string -> Result<Option<(real, real, real)>>, i: nat)
    requires i < |dirs| <= 5
    ensures Tally(dirs[..i + 1], part) ==
      var before :- Tally(dirs[..i], part);
      var x :- part(dirs[i]);
      Ok(Add(before, Slot(i), x))
  {
    assert dirs[..i + 1][..i] == dirs[..i];
  }

  lemma {:induction false} TallyErr(dirs: seq<string>, part: string -> Result<Option<(real, real, real)>>, k: nat)
    requires k <= |dirs| <= 5 && Tally(dirs[..k], part).Err?
    ensures Tally(dirs, part) == Tally(dirs[..k], part)
    decreases |dirs| - k
  {
    if k < |dirs| {
      TallySnoc(dirs, part, k);
      TallyErr(dirs, part, k + 1);
    } else {
      assert dirs[..k] == dirs;
    }
  }

  /** A failed tally fails with what one of the directions' lookups raised. */
  lemma {:induction false} TallyError(dirs: seq<string>, part: string -> Result<Option<(real, real, real)>>)
    requires |dirs| <= 5 && Tally(dirs, part).Err?
    ensures exists i :: 0 <= i < |dirs| && part(dirs[i]) == Err(Tally(dirs, part).error)
  {
    var n := |dirs| - 1;
    if Tally(dirs[..n], part).Err? {
      TallyError(dirs[..n], part);
      var i :| 0 <= i < n && part(dirs[..n][i]) == Err(Tally(dirs[..n], part).error);
      assert dirs[..n][i] == dirs[i];
    }
  }

  lemma AddParts(c: Counters, k: nat, x: Option<(real, real, real)>)
    requires FourSlots(c) && k < 4
    ensures var g := Gain(x);
      Add(c, k, x) == Counters(c.totals[k := c.totals[k] + g.0], c.shorts[k := c.shorts[k] + g.1], c.dropped[k := c.dropped[k] + g.2])
    ensures x.None? ==> Add(c, k, x) == c
  {
    if x.None? {
      assert c.totals[k := c.totals[k] + 0.0] == c.totals;
      assert c.shorts[k := c.shorts[k] + 0.0] == c.shorts;
      assert c.dropped[k := c.dropped[k] + 0.0] == c.dropped;
    }
  }

  /** `totals[k] += v.0`, `shorts[k] += v.1`, `dropped[k] += v.2` when the
      direction contributes `v`; nothing when it contributes nothing. */
  method AddAt(totals: array<real>, shorts: array<real>, dropped: array<real>, k: nat, x: Option<(real, real, real)>)
    requires totals.Length == 4 && shorts.Length == 4 && dropped.Length == 4 && k < 4
    requires totals != shorts && totals != dropped && shorts != dropped
    modifies totals, shorts, dropped
    ensures Counters(totals[..], shorts[..], dropped[..])
      == Add(Counters(old(totals[..]), old(shorts[..]), old(dropped[..])), k, x)
  {
    ghost var c := Counters(totals[..], shorts[..], dropped[..]);
    AddParts(c, k, x);
    if x.Some? {
      var v := x.value;
      totals[k] := totals[k] + v.0;
      shorts[k] := shorts[k] + v.1;
      dropped[k] := dropped[k] + v.2;
    }
  }

  /** The counting loop of `_normalJobStats`: the lookups of one direction
      are `Contribution`; its counts are added in place to slot `idx - 1`
      (slot 0 for position 0) of three arrays. */
  method IssuedCounts(job: Value, dirs: seq<string>) returns (r: Result<Counters>)
    requires |dirs| <= 5
    ensures r == Tally(dirs, ContributionOf(job))
  {
    ghost var part := ContributionOf(job);
    var totals := new real[4](_ => 0.0);
    var shorts := new real[4](_ => 0.0);
    var dropped := new real[4](_ => 0.0);
    assert totals[..] == Zero.totals && shorts[..] == Zero.shorts && dropped[..] == Zero.dropped;
    for idx := 0 to |dirs|
      invariant totals != shorts && totals != dropped && shorts != dropped
      invariant Tally(dirs[..idx], part) == Ok(Counters(totals[..], shorts[..], dropped[..]))
    {
      TallySnoc(dirs, part, idx);
      var slot := if idx > 0 then idx - 1 else idx;
      ghost var before := Counters(totals[..], shorts[..], dropped[..]);
      var x := Contribution(job, dirs[idx]);
      assert part(dirs[idx]) == x;
      if x.Err? {
        TallyErr(dirs, part, idx + 1);
        return Err(x.error);
      }
      assert Tally(dirs[..idx + 1], part) == Ok(Add(before, slot, x.value));
      AddAt(totals, shorts, dropped, slot, x.value);
    }
    assert dirs[..|dirs|] == dirs;
    return Ok(Counters(totals[..], shorts[..], dropped[..]));
  }

  /** What a direction contributes, zero when it contributes nothing. */
  function Part(x: Result<Option<(real, real, real)>>): (real, real, real)
  {
    match x
    case Ok(Some(v)) => v
    case _ => (0.0, 0.0, 0.0)
  }

  function Plus(a: (real, real, real), b: (real, real, real)): (real, real, real)
  {
    (a.0 + b.0, a.1 + b.1, a.2 + b.2)
  }

  /** What the first `i` directions whose slot is `k` contribute together. */
  function Gained(dirs: seq<string>, part: string -> Result<Option<(real, real, real)>>, i: nat, k: nat): (real, real, real)
    requires i <= |dirs|
  {
    if i == 0 then (0.0, 0.0, 0.0)
    else if Slot(i - 1) == k then Plus(Gained(dirs, part, i - 1, k), Part(part(dirs[i - 1])))
    else Gained(dirs, part, i - 1, k)
  }

  /** After the first `i` directions each slot holds, in all three lists,
      the sum of what the directions counted in that slot contribute. */
  lemma {:induction false} TallySlots(dirs: seq<string>, part: string -> Result<Option<(real, real, real)>>, i: nat)
    requires i <= |dirs| <= 5 && Tally(dirs[..i], part).Ok?
    ensures forall k :: 0 <= k < 4 ==>
      var c := Tally(dirs[..i], part).value; var g := Gained(dirs, part, i, k);
      c.totals[k] == g.0 && c.shorts[k] == g.1 && c.dropped[k] == g.2
  {
    if i == 0 {
      assert dirs[..0] == [];
    } else {
      TallySnoc(dirs, part, i - 1);
      TallySlots(dirs, part, i - 1);
    }
  }

  /** Over five directions, slot 0 holds what the first two contribute
      together and slots 1, 2 and 3 what the third, fourth and fifth
      contribute: with the source's list, mixed and read share slot 0, then
      come write, trim and sync. */
  lemma SlotsOfFive(dirs: seq<string>, part: string -> Result<Option<(real, real, real)>>)
    requires |dirs| == 5
    ensures Gained(dirs, part, 5, 0) == Plus(Part(part(dirs[0])), Part(part(dirs[1])))
    ensures Gained(dirs, part, 5, 1) == Part(part(dirs[2]))
    ensures Gained(dirs, part, 5, 2) == Part(part(dirs[3]))
    ensures Gained(dirs, part, 5, 3) == Part(part(dirs[4]))
  {
    var p0, p1 := Part(part(dirs[0])), Part(part(dirs[1]));
    assert Slot(0) == 0 && Slot(1) == 0;
    assert Gained(dirs, part, 1, 0) == Plus((0.0, 0.0, 0.0), p0);
    assert Gained(dirs, part, 2, 0) == Plus(Gained(dirs, part, 1, 0), p1);
    GainedAfter(dirs, part, 5, 0);
    forall k | 1 <= k <= 3
      ensures Gained(dirs, part, 5, k) == Part(part(dirs[k + 1]))
    {
      GainedBefore(dirs, part, k + 1, k);
      assert Gained(dirs, part, k + 2, k) == Plus((0.0, 0.0, 0.0), Part(part(dirs[k + 1])));
      GainedAfter(dirs, part, 5, k);
    }
  }

  /** No direction before position `k + 1` is counted in slot `k >= 1`. */
  lemma {:induction false} GainedBefore(dirs: seq<string>, part: string -> Result<Option<(real, real, real)>>, i: nat, k: nat)
    requires 1 <= k && i <= k + 1 && i <= |dirs|
    ensures Gained(dirs, part, i, k) == (0.0, 0.0, 0.0)
  {
    if i > 0 {
      GainedBefore(dirs, part, i - 1, k);
    }
  }

  /** No direction from position `k + 2` on is counted in slot `k`. */
  lemma {:induction false} GainedAfter(dirs: seq<string>, part: string -> Result<Option<(real, real, real)>>, i: nat, k: nat)
    requires k + 2 <= i <= |dirs|
    ensures Gained(dirs, part, i, k) == Gained(dirs, part, k + 2, k)
  {
    if i > k + 2 {
      GainedAfter(dirs, part, i - 1, k);
    }
  }

  /** A present direction whose `total_ios` is zero or negative adds
      nothing. */
  lemma NotCountedUnlessPositive(job: Value, d: string)
    requires Has(job, d)
    requires Get(Get(job, d).value, "total_ios").Ok?
    requires Num(Get(Get(job, d).value, "total_ios").value).Some?
    requires Num(Get(Get(job, d).value, "total_ios").value).value <= 0.0
    ensures Contribution(job, d) == Ok(None)
    ensures Part(Contribution(job, d)) == (0.0, 0.0, 0.0)
  {
  }

  /** `','.join(str(x) for x in xs)`, `show` rendering one count. */
  function CommaList(xs: seq<real>, show: real -> string): string
  {
    Join(seq(|xs|, i requires 0 <= i < |xs| => show(xs[i])), ',')
  }

  /** The line `_normalIssued` prints. */
  function IssuedLine(c: Counters, show: real -> string): string
  {
    "     issued rwts: total=" + CommaList(c.totals, show) + " short=" + CommaList(c.shorts, show)
      + " dropped=" + CommaList(c.dropped, show)
  }

  /** The joined counts split back into the shown counts, one per slot, when
      no shown count holds a ','. */
  lemma CommaListFields(xs: seq<real>, show: real -> string)
    requires |xs| >= 1
    requires forall i :: 0 <= i < |xs| ==> ',' !in show(xs[i])
    ensures Split(CommaList(xs, show), ',') == seq(|xs|, i requires 0 <= i < |xs| => show(xs[i]))
    ensures |Split(CommaList(xs, show), ',')| == |xs|
  {
    SplitJoin(seq(|xs|, i requires 0 <= i < |xs| => show(xs[i])), ',');
  }
}
