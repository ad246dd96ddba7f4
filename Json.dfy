// The already-parsed JSON tree, as Python's `json.load` with
// `object_pairs_hook=OrderedDict` produces it: objects keep their keys in
// order. The error kinds of the interpreter and the few Python operations the
// interpreter applies to tree nodes (`obj[key]`, `key in obj`, iteration,
// `x / 1000.0`, ordered-dict assignment) are here too.

module Json {

  datatype Value =
    | Null
    | Bool(b: bool)
    | Int(i: int)
    | Float(f: real)
    | Str(s: string)
    | Array(items: seq<Value>)
    | Object(fields: Fields)

  /** An ordered dictionary: key/value pairs in insertion order. */
  type Fields = seq<(string, Value)>

  datatype Option<T> = None | Some(value: T)

  /** The exceptions the interpreter raises or lets escape.
      `TypeError` also stands for Python's `AttributeError` (calling `.lower()`
      or `.items()` on a value that has no such method). */
  datatype Error =
    | NoJsonData(file: string)
    | MissingJobs(file: string)
    | KeyError(key: string)
    | TypeError
    | ValueError

  /** The errors a failed lookup or a misapplied operator raises. */
  predicate LookupError(e: Error)
  {
    e.KeyError? || e.TypeError?
  }

  datatype Result<T> = Ok(value: T) | Err(error: Error) {
    predicate IsFailure() { Err? }
    function PropagateFailure<U>(): Result<U> requires Err? { Err(error) }
    function Extract(): T requires Ok? { value }
  }

  function Keys(d: Fields): (ks: seq<string>)
    ensures |ks| == |d|
  {
    seq(|d|, i requires 0 <= i < |d| => d[i].0)
  }

  lemma FieldsAssoc(a: Fields, b: Fields, c: Fields)
    ensures a + (b + c) == a + b + c
  {
  }

  /** The keys of a concatenation are the keys of its parts. */
  lemma KeysConcat(a: Fields, b: Fields)
    ensures Keys(a + b) == Keys(a) + Keys(b)
  {
    assert forall i :: 0 <= i < |a + b| ==> Keys(a + b)[i] == (a + b)[i].0;
  }

  /** Dictionary lookup `d[key]`; an ordered dict never holds a key twice,
      and for a sequence that does the first pair is the one found. */
  function Find(d: Fields, key: string): (r: Option<Value>)
    ensures r.None? <==> key !in Keys(d)
    ensures r.Some? ==> exists i :: 0 <= i < |d| && d[i] == (key, r.value)
  {
    if |d| == 0 then None
    else if d[0].0 == key then
      assert Keys(d)[0] == key;
      Some(d[0].1)
    else
      assert Keys(d) == [d[0].0] + Keys(d[1..]);
      var r := Find(d[1..], key);
      if r.Some? then
        var i :| 0 <= i < |d[1..]| && d[1..][i] == (key, r.value);
        assert d[i + 1] == (key, r.value);
        r
      else r
  }

  /** Ordered-dict assignment `d[key] = v`: an existing key keeps its place
      and gets the new value, a new key goes at the end. */
  function Put(d: Fields, key: string, v: Value): Fields
  {
    if |d| == 0 then [(key, v)]
    else if d[0].0 == key then [(key, v)] + d[1..]
    else [d[0]] + Put(d[1..], key, v)
  }

  /** Assignment adds a key only when it was missing, and only at the end. */
  lemma {:induction false} PutKeys(d: Fields, key: string, v: Value)
    ensures Keys(Put(d, key, v)) == if key in Keys(d) then Keys(d) else Keys(d) + [key]
  {
    if |d| > 0 {
      assert Keys(d) == [d[0].0] + Keys(d[1..]);
      if d[0].0 != key {
        PutKeys(d[1..], key, v);
        assert key in Keys(d) <==> key in Keys(d[1..]);
        assert Keys([d[0]] + Put(d[1..], key, v)) == [d[0].0] + Keys(Put(d[1..], key, v));
      } else {
        assert Keys(Put(d, key, v)) == [key] + Keys(d[1..]);
      }
    }
  }

  /** After `d[key] = v`, `d[key]` is `v` and every other key reads as before. */
  lemma {:induction false} PutFind(d: Fields, key: string, v: Value, other: string)
    ensures Find(Put(d, key, v), key) == Some(v)
    ensures other != key ==> Find(Put(d, key, v), other) == Find(d, other)
  {
    if |d| > 0 && d[0].0 != key {
      PutFind(d[1..], key, v, other);
    }
  }

  /** A sequence of assignments, in order. */
  function PutAll(d: Fields, entries: Fields): Fields
    decreases |entries|
  {
    if |entries| == 0 then d
    else PutAll(Put(d, entries[0].0, entries[0].1), entries[1..])
  }

  /** The dictionary after the assignments `entries`, or the error raised
      while computing them. */
  function PutAllOk(d: Fields, entries: Result<Fields>): Result<Fields>
  {
    match entries
    case Ok(fs) => Ok(PutAll(d, fs))
    case Err(e) => Err(e)
  }

  /** Assignment to a new key appends the pair. */
  lemma {:induction false} PutNew(d: Fields, key: string, v: Value)
    requires key !in Keys(d)
    ensures Put(d, key, v) == d + [(key, v)]
  {
    if |d| > 0 {
      assert Keys(d) == [d[0].0] + Keys(d[1..]);
      PutNew(d[1..], key, v);
      assert [d[0]] + (d[1..] + [(key, v)]) == d + [(key, v)];
    }
  }

  /** Assignment to a key that is not among the first entries leaves them in place. */
  lemma {:induction false} PutKeepsPrefix(p: Fields, q: Fields, key: string, v: Value)
    requires key !in Keys(p)
    ensures Put(p + q, key, v) == p + Put(q, key, v)
  {
    if |p| > 0 {
      var pq := p + q;
      assert pq[0] == p[0] && p[0].0 == Keys(p)[0] && p[0].0 != key;
      assert pq[1..] == p[1..] + q;
      assert Put(pq, key, v) == [p[0]] + Put(p[1..] + q, key, v);
      assert key !in Keys(p[1..]) by {
        forall i | 0 <= i < |p[1..]| ensures Keys(p[1..])[i] != key {
          assert Keys(p[1..])[i] == Keys(p)[i + 1];
        }
      }
      PutKeepsPrefix(p[1..], q, key, v);
      assert [p[0]] + (p[1..] + Put(q, key, v)) == p + Put(q, key, v);
    } else {
      assert p + q == q;
    }
  }

  /** Assignments to keys not among the first entries leave them in place. */
  lemma {:induction false} PutAllKeepsPrefix(p: Fields, q: Fields, entries: Fields)
    requires forall i :: 0 <= i < |entries| ==> entries[i].0 !in Keys(p)
    ensures PutAll(p + q, entries) == p + PutAll(q, entries)
    decreases |entries|
  {
    if |entries| > 0 {
      PutKeepsPrefix(p, q, entries[0].0, entries[0].1);
      PutAllKeepsPrefix(p, Put(q, entries[0].0, entries[0].1), entries[1..]);
    }
  }

  /** Assignments to distinct new keys append the pairs, in order. */
  lemma {:induction false} PutAllFresh(d: Fields, entries: Fields)
    requires forall i :: 0 <= i < |entries| ==> entries[i].0 !in Keys(d)
    requires forall i, j :: 0 <= i < j < |entries| ==> entries[i].0 != entries[j].0
    ensures PutAll(d, entries) == d + entries
    decreases |entries|
  {
    if |entries| > 0 {
      PutNew(d, entries[0].0, entries[0].1);
      var d' := d + [entries[0]];
      assert Keys(d') == Keys(d) + [entries[0].0];
      forall i | 0 <= i < |entries[1..]| ensures entries[1..][i].0 !in Keys(d') {
        assert entries[1..][i] == entries[i + 1];
      }
      PutAllFresh(d', entries[1..]);
      assert d' + entries[1..] == d + entries;
    }
  }

  /** Assignment never moves or renames the first entry's key. */
  lemma {:induction false} PutAllFirstKey(d: Fields, entries: Fields)
    requires |d| > 0
    ensures |PutAll(d, entries)| > 0 && PutAll(d, entries)[0].0 == d[0].0
    decreases |entries|
  {
    if |entries| > 0 {
      PutAllFirstKey(Put(d, entries[0].0, entries[0].1), entries[1..]);
    }
  }

  /** Assignments to other keys do not change what a key reads. */
  lemma {:induction false} PutAllFindOther(d: Fields, entries: Fields, key: string)
    requires forall i :: 0 <= i < |entries| ==> entries[i].0 != key
    ensures Find(PutAll(d, entries), key) == Find(d, key)
    decreases |entries|
  {
    if |entries| > 0 {
      PutFind(d, entries[0].0, entries[0].1, key);
      PutAllFindOther(Put(d, entries[0].0, entries[0].1), entries[1..], key);
    }
  }

  /** After assignments to distinct keys, each key reads its assigned value. */
  lemma {:induction false} PutAllFind(d: Fields, entries: Fields, j: nat)
    requires j < |entries|
    requires forall i, k :: 0 <= i < k < |entries| ==> entries[i].0 != entries[k].0
    ensures Find(PutAll(d, entries), entries[j].0) == Some(entries[j].1)
    decreases |entries|
  {
    var d' := Put(d, entries[0].0, entries[0].1);
    if j == 0 {
      PutFind(d, entries[0].0, entries[0].1, entries[0].0);
      PutAllFindOther(d', entries[1..], entries[0].0);
    } else {
      PutAllFind(d', entries[1..], j - 1);
    }
  }

  /** Every assigned key is a key afterwards. */
  lemma {:induction false} PutAllHasKeys(d: Fields, entries: Fields)
    ensures forall k :: k in Keys(d) ==> k in Keys(PutAll(d, entries))
    ensures forall i :: 0 <= i < |entries| ==> entries[i].0 in Keys(PutAll(d, entries))
    decreases |entries|
  {
    if |entries| > 0 {
      var d' := Put(d, entries[0].0, entries[0].1);
      PutKeys(d, entries[0].0, entries[0].1);
      PutAllHasKeys(d', entries[1..]);
      forall i | 0 < i < |entries| ensures entries[i].0 in Keys(PutAll(d, entries)) {
        assert entries[i] == entries[1..][i - 1];
      }
    }
  }

  /** Two runs of assignments are one run of both, in order. */
  lemma {:induction false} PutAllConcat(d: Fields, a: Fields, b: Fields)
    ensures PutAll(PutAll(d, a), b) == PutAll(d, a + b)
    decreases |a|
  {
    if |a| == 0 {
      assert a + b == b;
    } else {
      assert (a + b)[1..] == a[1..] + b;
      PutAllConcat(Put(d, a[0].0, a[0].1), a[1..], b);
    }
  }

  /** Assignments only to keys already present leave the key sequence unchanged. */
  lemma {:induction false} PutAllKnownKeys(d: Fields, entries: Fields)
    requires forall i :: 0 <= i < |entries| ==> entries[i].0 in Keys(d)
    ensures Keys(PutAll(d, entries)) == Keys(d)
    decreases |entries|
  {
    if |entries| > 0 {
      PutKeys(d, entries[0].0, entries[0].1);
      PutAllKnownKeys(Put(d, entries[0].0, entries[0].1), entries[1..]);
    }
  }

  /** Assignments to distinct new keys append those keys in assignment order. */
  lemma {:induction false} PutAllNewKeys(d: Fields, entries: Fields)
    requires forall i :: 0 <= i < |entries| ==> entries[i].0 !in Keys(d)
    requires forall i, j :: 0 <= i < j < |entries| ==> entries[i].0 != entries[j].0
    ensures Keys(PutAll(d, entries)) == Keys(d) + Keys(entries)
    decreases |entries|
  {
    if |entries| > 0 {
      var e := entries[0];
      var rest := entries[1..];
      var d' := Put(d, e.0, e.1);
      PutKeys(d, e.0, e.1);
      assert Keys(d') == Keys(d) + [e.0];
      forall i | 0 <= i < |rest| ensures rest[i].0 !in Keys(d') {
        assert rest[i] == entries[i + 1];
        assert rest[i].0 != e.0;
        assert rest[i].0 !in Keys(d);
      }
      assert forall i, j :: 0 <= i < j < |rest| ==> rest[i].0 != rest[j].0 by {
        forall i, j | 0 <= i < j < |rest| ensures rest[i].0 != rest[j].0 {
          assert rest[i] == entries[i + 1] && rest[j] == entries[j + 1];
        }
      }
      PutAllNewKeys(d', rest);
      assert PutAll(d, entries) == PutAll(d', rest);
      assert Keys(entries) == [e.0] + Keys(rest);
      assert Keys(d) + [e.0] + Keys(rest) == Keys(d) + ([e.0] + Keys(rest));
    }
  }

  /** Python's `key in obj` for a dictionary. */
  predicate Has(v: Value, key: string)
  {
    v.Object? && Find(v.fields, key).Some?
  }

  /** Python's `obj[key]` with a string key: a missing key raises KeyError,
      and a node that is not a dictionary cannot be indexed by a string. */
  function Get(v: Value, key: string): (r: Result<Value>)
    ensures r.Ok? <==> Has(v, key)
    ensures !v.Object? ==> r == Err(TypeError)
    ensures v.Object? && !Has(v, key) ==> r == Err(KeyError(key))
  {
    match v
    case Object(fields) =>
      (match Find(fields, key)
       case Some(x) => Ok(x)
       case None => Err(KeyError(key)))
    case _ => Err(TypeError)
  }

  /** Python's `isinstance(v, int)`: true also of booleans. */
  predicate IsPyInt(v: Value)
  {
    v.Int? || v.Bool?
  }

  /** The numeric value of a number (booleans count as 0 and 1). */
  function Num(v: Value): (r: Option<real>)
    ensures r.Some? <==> v.Int? || v.Float? || v.Bool?
  {
    match v
    case Int(i) => Some(i as real)
    case Float(f) => Some(f)
    case Bool(b) => Some(if b then 1.0 else 0.0)
    case _ => None
  }

  /** A number as Python arithmetic and comparison take it; anything else
      raises TypeError. */
  function Number(v: Value): (r: Result<real>)
    ensures r.Ok? <==> Num(v).Some?
    ensures r.Ok? ==> r.value == Num(v).value
    ensures r.Err? ==> r.error == TypeError
  {
    match Num(v)
    case Some(x) => Ok(x)
    case None => Err(TypeError)
  }

  /** Python's `v / 1000.0`: a float for a number, TypeError otherwise. */
  function DivThousand(v: Value): (r: Result<Value>)
    ensures r.Ok? <==> Num(v).Some?
    ensures r.Ok? ==> r.value.Float? && r.value.f * 1000.0 == Num(v).value
  {
    match Num(v)
    case Some(x) => Ok(Float(x / 1000.0))
    case None => Err(TypeError)
  }

  /** Python's `for x in v`: a list yields its items, a dictionary its keys,
      a string its characters; anything else is not iterable. */
  function Iterate(v: Value): (r: Result<seq<Value>>)
    ensures v.Array? ==> r == Ok(v.items)
    ensures r.Ok? <==> v.Array? || v.Object? || v.Str?
    ensures r.Ok? && v.Object? ==> |r.value| == |v.fields|
    ensures r.Ok? && v.Object? ==> forall i :: 0 <= i < |v.fields| ==> r.value[i] == Str(v.fields[i].0)
    ensures r.Ok? && v.Str? ==> |r.value| == |v.s|
    ensures r.Ok? && v.Str? ==> forall i :: 0 <= i < |v.s| ==> r.value[i] == Str([v.s[i]])
  {
    match v
    case Array(items) => Ok(items)
    case Object(fields) => Ok(seq(|fields|, i requires 0 <= i < |fields| => Str(fields[i].0)))
    case Str(s) => Ok(seq(|s|, i requires 0 <= i < |s| => Str([s[i]])))
    case _ => Err(TypeError)
  }
}
