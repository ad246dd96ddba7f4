// The path accessor (`FioJsonFile._getObjValue`): resolves a `/`-separated
// path by successive key lookups and then applies the unit heuristic that
// turns nanosecond figures into microseconds.

module PathAccess {
  import opened Strings
  import opened Json

  /** Successive lookups `v[segs[0]][segs[1]]...`. */
  function Walk(v: Value, segs: seq<string>): Result<Value>
    decreases |segs|
  {
    if |segs| == 0 then Ok(v)
    else
      match Get(v, segs[0])
      case Err(e) => Err(e)
      case Ok(child) => Walk(child, segs[1..])
  }

  /** The heuristic exactly as Python parses it:
      `"_ns" in path or ("lat" in path and isinstance(out, int))`.
      The integer test guards only the `lat` clause. */
  predicate ScalesToMicro(path: string, out: Value)
  {
    Contains(path, "_ns") || (Contains(path, "lat") && IsPyInt(out))
  }

  function GetObjValue(obj: Value, path: string): (r: Result<Value>)
    ensures Walk(obj, Split(path, '/')).Err? ==> r == Walk(obj, Split(path, '/'))
    ensures r.Ok? ==> Walk(obj, Split(path, '/')).Ok?
  {
    var out :- Walk(obj, Split(path, '/'));
    if ScalesToMicro(path, out) then DivThousand(out) else Ok(out)
  }

  /** Walking one segment further is one more lookup. */
  lemma {:induction false} WalkSnoc(v: Value, segs: seq<string>, key: string)
    ensures Walk(v, segs + [key]) == match Walk(v, segs) case Ok(x) => Get(x, key) case Err(e) => Err(e)
    decreases |segs|
  {
    if |segs| == 0 {
      assert segs + [key] == [key];
    } else {
      assert (segs + [key])[1..] == segs[1..] + [key];
      match Get(v, segs[0])
      case Err(e) =>
      case Ok(child) => WalkSnoc(child, segs[1..], key);
    }
  }

  /** A walk succeeds exactly when every prefix of the path reaches a
      dictionary that holds the next segment. */
  lemma {:induction false} WalkOkIff(v: Value, segs: seq<string>)
    ensures Walk(v, segs).Ok? <==>
      forall k :: 0 <= k < |segs| ==> Walk(v, segs[..k]).Ok? && Has(Walk(v, segs[..k]).value, segs[k])
    decreases |segs|
  {
    var n := |segs|;
    if n > 0 {
      var init := segs[..n - 1];
      WalkOkIff(v, init);
      assert segs == init + [segs[n - 1]];
      WalkSnoc(v, init, segs[n - 1]);
      forall k | 0 <= k < n - 1 ensures init[..k] == segs[..k] && init[k] == segs[k] { }
      if Walk(v, segs).Ok? {
        forall k | 0 <= k < n
          ensures Walk(v, segs[..k]).Ok? && Has(Walk(v, segs[..k]).value, segs[k])
        {
          if k == n - 1 {
            assert segs[..k] == init;
          }
        }
      }
      if forall k :: 0 <= k < n ==> Walk(v, segs[..k]).Ok? && Has(Walk(v, segs[..k]).value, segs[k]) {
        assert segs[..n - 1] == init;
        assert Walk(v, init).Ok? && Has(Walk(v, init).value, segs[n - 1]);
      }
    }
  }

  /** A failed walk reports either the missing key or a node that is not a dictionary. */
  lemma {:induction false} WalkErrors(v: Value, segs: seq<string>)
    requires Walk(v, segs).Err?
    ensures Walk(v, segs).error == TypeError || exists k :: 0 <= k < |segs| && Walk(v, segs).error == KeyError(segs[k])
    decreases |segs|
  {
    match Get(v, segs[0])
    case Err(e) =>
    case Ok(child) =>
      WalkErrors(child, segs[1..]);
      if Walk(v, segs).error != TypeError {
        var k :| 0 <= k < |segs[1..]| && Walk(child, segs[1..]).error == KeyError(segs[1..][k]);
        assert Walk(v, segs).error == KeyError(segs[k + 1]);
      }
  }

  /** A path written as its segments joined by `/` walks those segments. */
  lemma PathOfSegments(obj: Value, segs: seq<string>)
    requires |segs| >= 1
    requires forall i :: 0 <= i < |segs| ==> '/' !in segs[i]
    ensures GetObjValue(obj, Join(segs, '/')) ==
      match Walk(obj, segs)
      case Err(e) => Err(e)
      case Ok(out) => if ScalesToMicro(Join(segs, '/'), out) then DivThousand(out) else Ok(out)
  {
    SplitJoin(segs, '/');
  }

  /** The precedence of the heuristic: a `_ns` path scales whatever it
      reaches (so a string there raises TypeError), a `lat` path without
      `_ns` scales integers and booleans only, and any other path returns
      the value untouched. */
  lemma UnitHeuristic(obj: Value, path: string)
    requires Walk(obj, Split(path, '/')).Ok?
    ensures var out := Walk(obj, Split(path, '/')).value;
      && (Contains(path, "_ns") ==> GetObjValue(obj, path) == DivThousand(out))
      && (!Contains(path, "_ns") && Contains(path, "lat") ==>
            GetObjValue(obj, path) == if IsPyInt(out) then DivThousand(out) else Ok(out))
      && (!Contains(path, "_ns") && !Contains(path, "lat") ==> GetObjValue(obj, path) == Ok(out))
  {
  }

  /** `clat_ns/mean` holding the integer 306308 reads as 306.308. */
  lemma ClatMeanExample(obj: Value, path: string)
    requires obj == Object([("clat_ns", Object([("mean", Int(306308))]))])
    requires path == "clat_ns/mean"
    ensures GetObjValue(obj, path) == Ok(Float(306.308))
  {
    ClatPath(path);
    TwoLookups(obj, "clat_ns", "mean", Int(306308));
    assert DivThousand(Int(306308)) == Ok(Float(306.308));
  }

  /** `clat_ns/mean` is two segments and a nanosecond path. */
  lemma ClatPath(path: string)
    requires path == "clat_ns/mean"
    ensures Split(path, '/') == ["clat_ns", "mean"]
    ensures Contains(path, "_ns")
  {
    SplitAtFirst("clat_ns", "mean", '/');
    SplitNoSeparator("mean", '/');
    assert path == "clat_ns" + ['/'] + "mean";
    assert path[4..7] == "_ns";
    assert OccursAt(path, "_ns", 4);
    ContainsIffOccurs(path, "_ns");
  }

  /** A two-segment walk through nested one-entry dictionaries finds the inner value. */
  lemma TwoLookups(obj: Value, outer: string, inner: string, x: Value)
    requires obj == Object([(outer, Object([(inner, x)]))])
    ensures Walk(obj, [outer, inner]) == Ok(x)
  {
    var nested := Object([(inner, x)]);
    assert Keys(obj.fields)[0] == outer;
    assert Get(obj, outer) == Ok(nested);
    OneLookup(nested, inner, x);
    assert [outer, inner][1..] == [inner];
  }

  /** `bw_mean` holds no `_ns` and no `lat`, so its value is returned unscaled. */
  lemma BwMeanExample(obj: Value, path: string)
    requires obj == Object([("bw_mean", Float(807506.613445))])
    requires path == "bw_mean"
    ensures GetObjValue(obj, path) == Ok(Float(807506.613445))
  {
    PlainPath(path);
    var x := Float(807506.613445);
    assert Walk(obj, [path]) == Ok(x) by {
      OneLookup(obj, path, x);
    }
  }

  /** `bw_mean` is one segment that triggers no unit scaling. */
  lemma PlainPath(path: string)
    requires path == "bw_mean"
    ensures Split(path, '/') == [path]
    ensures !Contains(path, "_ns") && !Contains(path, "lat")
  {
    SplitNoSeparator(path, '/');
    assert 's' !in path && 'l' !in path;
    NotContainsMissingChar(path, "_ns", 2);
    NotContainsMissingChar(path, "lat", 0);
  }

  /** A one-segment walk in a one-entry dictionary finds its value. */
  lemma OneLookup(obj: Value, key: string, x: Value)
    requires obj == Object([(key, x)])
    ensures Walk(obj, [key]) == Ok(x)
  {
    assert Keys(obj.fields)[0] == key;
    assert Get(obj, key) == Ok(x);
    var segs: seq<string> := [key];
    assert segs[1..] == [];
  }
}
