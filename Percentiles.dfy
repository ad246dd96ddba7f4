// Percentile expansion (`FioJsonFile._getDirectionPercentiles`): every entry
// of a completion-latency percentile table becomes one terse field named
// after the metric and the percentile label, holding the value in
// microseconds.

module Percentiles {
  import opened Strings
  import opened Json

  /** The characters `rstrip('.0')` removes: any trailing run of them. */
  const StripChars: set<char> := {'.', '0'}

  /** The characters the evident label strips: first zeros, then a point. */
  const TrailingZero: set<char> := {'0'}
  const DecimalPoint: set<char> := {'.'}

  /** The label as the source computes it, `pct.rstrip('.0')`. */
  function AsWrittenLabel(pct: string): (r: string)
    ensures |r| <= |pct| && r == pct[..|r|]
    ensures r == [] || r[|r| - 1] !in StripChars
    ensures forall i :: |r| <= i < |pct| ==> pct[i] == '.' || pct[i] == '0'
  {
    RStrip(pct, StripChars)
  }

  /** The label the expansion evidently means: a decimal loses the zeros
      at the end of its fraction, then a dangling decimal point; a label
      without a point is kept. */
  function PercentileLabel(pct: string): string
  {
    if '.' in pct then RStrip(RStrip(pct, TrailingZero), DecimalPoint) else pct
  }

  /** Which label an expansion uses: the source's `rstrip('.0')`, or the
      evidently intended one. */
  datatype Labelling = AsWritten | Intended

  function Label(how: Labelling, pct: string): string
  {
    match how
    case AsWritten => AsWrittenLabel(pct)
    case Intended => PercentileLabel(pct)
  }

  /** The field name for one percentile entry. */
  function FieldName(metricName: string, how: Labelling, pct: string): string
  {
    metricName + "_" + Label(how, pct)
  }

  /** The fields the expansion assigns, in entry order; a value that is not
      a number makes the division raise TypeError. The program names them
      with the label `AsWritten`. */
  function PercentileFields(metricName: string, how: Labelling, items: Fields): (r: Result<Fields>)
    ensures r.Ok? <==> forall i :: 0 <= i < |items| ==> Num(items[i].1).Some?
    ensures r.Err? ==> r.error == TypeError
    ensures r.Ok? ==> |r.value| == |items|
    ensures r.Ok? ==> forall i :: 0 <= i < |items| ==>
      r.value[i] == (FieldName(metricName, how, items[i].0), DivThousand(items[i].1).value)
    decreases |items|
  {
    if |items| == 0 then Ok([])
    else
      var n := |items| - 1;
      var before :- PercentileFields(metricName, how, items[..n]);
      var v :- DivThousand(items[n].1);
      Ok(before + [(FieldName(metricName, how, items[n].0), v)])
  }

  lemma {:induction false} PutAllSnoc(d: Fields, entries: Fields, e: (string, Value))
    ensures PutAll(d, entries + [e]) == Put(PutAll(d, entries), e.0, e.1)
    decreases |entries|
  {
    if |entries| > 0 {
      assert (entries + [e])[1..] == entries[1..] + [e];
      PutAllSnoc(Put(d, entries[0].0, entries[0].1), entries[1..], e);
    }
  }

  /** One more entry extends the fields by one, or makes them fail. */
  lemma FieldsSnoc(metricName: string, how: Labelling, items: Fields, i: nat)
    requires i < |items|
    requires PercentileFields(metricName, how, items[..i]).Ok?
    ensures Num(items[i].1).None? ==> PercentileFields(metricName, how, items).Err?
    ensures Num(items[i].1).Some? ==>
      PercentileFields(metricName, how, items[..i + 1]) ==
        Ok(PercentileFields(metricName, how, items[..i]).value + [(FieldName(metricName, how, items[i].0), DivThousand(items[i].1).value)])
  {
    assert items[..i + 1][..i] == items[..i];
  }

  /** Writes the fields of a percentile table into the record `dOut`, each
      under `metric_` and the label `rstrip('.0')` gives; a later entry whose
      label repeats an earlier one overwrites that field in place. */
  method AddPercentiles(dOut: Fields, metricName: string, pcts: Value) returns (r: Result<Fields>)
    ensures !pcts.Object? ==> r == Err(TypeError)
    ensures pcts.Object? ==> r == PutAllOk(dOut, PercentileFields(metricName, AsWritten, pcts.fields))
  {
    if !pcts.Object? {
      return Err(TypeError);
    }
    var items := pcts.fields;
    var d := dOut;
    ghost var done: Fields := [];
    for i := 0 to |items|
      invariant PercentileFields(metricName, AsWritten, items[..i]) == Ok(done)
      invariant d == PutAll(dOut, done)
    {
      FieldsSnoc(metricName, AsWritten, items, i);
      var v := DivThousand(items[i].1);
      if v.Err? {
        return Err(TypeError);
      }
      var name := metricName + "_" + AsWrittenLabel(items[i].0);
      PutAllSnoc(dOut, done, (name, v.value));
      d := Put(d, name, v.value);
      done := done + [(name, v.value)];
    }
    assert items[..|items|] == items;
    return Ok(d);
  }

  /** With distinct labels that are new to the record, the expansion appends
      exactly one field per entry, in entry order. */
  lemma AddedFieldsInOrder(dOut: Fields, metricName: string, how: Labelling, items: Fields)
    requires PercentileFields(metricName, how, items).Ok?
    requires forall i :: 0 <= i < |items| ==> FieldName(metricName, how, items[i].0) !in Keys(dOut)
    requires forall i, j :: 0 <= i < j < |items| ==> Label(how, items[i].0) != Label(how, items[j].0)
    ensures var fs := PercentileFields(metricName, how, items).value;
      Keys(PutAll(dOut, fs)) == Keys(dOut) + seq(|items|, i requires 0 <= i < |items| => FieldName(metricName, how, items[i].0))
  {
    var fs := PercentileFields(metricName, how, items).value;
    forall i, j | 0 <= i < j < |fs| ensures fs[i].0 != fs[j].0 {
      FieldNameInjective(metricName, how, items[i].0, items[j].0);
    }
    PutAllNewKeys(dOut, fs);
    var names := seq(|items|, i requires 0 <= i < |items| => FieldName(metricName, how, items[i].0));
    assert Keys(fs) == names;
  }

  lemma FieldNameInjective(metricName: string, how: Labelling, a: string, b: string)
    ensures FieldName(metricName, how, a) == FieldName(metricName, how, b) ==> Label(how, a) == Label(how, b)
  {
    var p := |metricName| + 1;
    assert FieldName(metricName, how, a)[p..] == Label(how, a);
    assert FieldName(metricName, how, b)[p..] == Label(how, b);
  }

  /** `rstrip('.0')` removes a trailing run of both characters, not the
      suffix ".0": "10.000000" loses its integer zero too. */
  lemma AsWrittenLabelExamples(one: string, ten: string, ninetyNine: string)
    requires one == "1.000000" && ten == "10.000000" && ninetyNine == "99.990000"
    ensures AsWrittenLabel(one) == "1"
    ensures AsWrittenLabel(ten) == "1"
    ensures AsWrittenLabel(ninetyNine) == "99.99"
  {
    var p := AsWrittenLabel(one);
    assert one[0] == '1';
    assert |p| == 1;
    var r := AsWrittenLabel(ten);
    assert ten[0] == '1';
    assert |r| == 1;
    var q := AsWrittenLabel(ninetyNine);
    assert ninetyNine[4] == '9';
    assert |q| == 5;
  }

  /** The collision as written: the 1st and the 10th percentile both become
      field `<metric>_1`, so the 10th overwrites the 1st in place and the
      record keeps one field, holding the 10th's value, where there were
      two entries. */
  lemma PercentileCollision(metricName: string, one: string, ten: string, a: int, b: int)
    requires one == "1.000000" && ten == "10.000000"
    ensures PercentileFields(metricName, AsWritten, [(one, Int(a)), (ten, Int(b))]).Ok?
    ensures PutAll([], PercentileFields(metricName, AsWritten, [(one, Int(a)), (ten, Int(b))]).value)
         == [(metricName + "_1", DivThousand(Int(b)).value)]
  {
    AsWrittenLabelExamples(one, ten, "99.990000");
    var items := [(one, Int(a)), (ten, Int(b))];
    var key := metricName + "_1";
    assert metricName + "_" + "1" == key;
    var fs := PercentileFields(metricName, AsWritten, items).value;
    assert fs[0].0 == key && fs[1].0 == key;
    assert PutAll([], fs) == PutAll([(key, fs[0].1)], fs[1..]);
    assert PutAll([(key, fs[0].1)], fs[1..]) == PutAll([(key, fs[1].1)], fs[2..]);
  }

  /** Every decade below 100 merges with its leading digit as written:
      "50.000000" and "5.000000" both become "5", so of the standard
      table's 1, 5, 10, 20, ..., 90 only nine fields remain. */
  lemma DecadeCollision(c: char, zeros: string)
    requires c != '0' && c != '.'
    requires forall i :: 0 <= i < |zeros| ==> zeros[i] == '0'
    ensures AsWrittenLabel([c, '0', '.'] + zeros) == [c]
    ensures AsWrittenLabel([c, '.'] + zeros) == [c]
  {
    assert [c, '0', '.'] + zeros == [c] + (['0', '.'] + zeros);
    DigitThenStripped(c, ['0', '.'] + zeros);
    assert [c, '.'] + zeros == [c] + (['.'] + zeros);
    DigitThenStripped(c, ['.'] + zeros);
  }

  /** A kept digit followed only by stripped characters is all that stays. */
  lemma DigitThenStripped(c: char, t: string)
    requires c != '0' && c != '.'
    requires forall i :: 0 <= i < |t| ==> t[i] == '0' || t[i] == '.'
    ensures AsWrittenLabel([c] + t) == [c]
  {
    StrippedAway(t);
    RStripKeeps([c], StripChars);
    RStripConcat([c], t, StripChars);
  }

  /** A string made only of stripped characters vanishes. */
  lemma {:induction false} StrippedAway(t: string)
    requires forall i :: 0 <= i < |t| ==> t[i] == '0' || t[i] == '.'
    ensures RStrip(t, StripChars) == []
    decreases |t|
  {
    if t != [] {
      StrippedAway(t[..|t| - 1]);
    }
  }

  /** With the evident label the 1st, the 10th and the 99.99th percentile
      keep their own names. */
  lemma LabelExamples(one: string, ten: string, ninetyNine: string)
    requires one == "1.000000" && ten == "10.000000" && ninetyNine == "99.990000"
    ensures PercentileLabel(one) == "1"
    ensures PercentileLabel(ten) == "10"
    ensures PercentileLabel(ninetyNine) == "99.99"
  {
    WholeLabel(one, "1");
    WholeLabel(ten, "10");
    FractionLabel(ninetyNine);
  }

  lemma WholeLabel(pct: string, whole: string)
    requires pct == whole + ".000000" && '.' !in whole
    ensures PercentileLabel(pct) == whole
  {
    ZerosTail("000000");
    assert pct == whole + "." + "000000";
    LabelDecimal(whole, "000000");
  }

  lemma FractionLabel(ninetyNine: string)
    requires ninetyNine == "99.990000"
    ensures PercentileLabel(ninetyNine) == "99.99"
  {
    var whole, digits, zeros := "99", "99", "0000";
    assert ninetyNine == whole + "." + (digits + zeros);
    DigitsLabel(whole, digits, zeros);
    assert whole + "." + digits == "99.99";
  }

  /** A label whose fraction is digits ending in a non-zero digit, then
      zeros, keeps the integer part, the point and those digits. */
  lemma DigitsLabel(whole: string, digits: string, zeros: string)
    requires '.' !in whole && '.' !in digits
    requires digits != [] && digits[|digits| - 1] != '0'
    requires forall i :: 0 <= i < |zeros| ==> zeros[i] == '0'
    ensures PercentileLabel(whole + "." + (digits + zeros)) == whole + "." + digits
  {
    assert '.' !in digits + zeros;
    LabelDecimal(whole, digits + zeros);
    TrailingZerosOff(digits, zeros);
    ConcatAssoc(whole, ".", digits);
  }

  /** Digits that end in a non-zero digit, then zeros, keep the digits. */
  lemma TrailingZerosOff(digits: string, zeros: string)
    requires digits != [] && digits[|digits| - 1] != '0'
    requires forall i :: 0 <= i < |zeros| ==> zeros[i] == '0'
    ensures FractionTail(digits + zeros) == "." + digits
  {
    RStripConcat(digits, zeros, TrailingZero);
    assert RStrip(zeros, TrailingZero) == [];
    RStripKeeps(digits, TrailingZero);
  }

  /** The corrected expansion of the 1st and the 10th percentile fills two
      fields, `<metric>_1` then `<metric>_10`. */
  lemma PercentilesKept(metricName: string, one: string, ten: string, a: int, b: int)
    requires one == "1.000000" && ten == "10.000000"
    ensures PercentileFields(metricName, Intended, [(one, Int(a)), (ten, Int(b))]).Ok?
    ensures Keys(PutAll([], PercentileFields(metricName, Intended, [(one, Int(a)), (ten, Int(b))]).value))
         == [metricName + "_1", metricName + "_10"]
  {
    WholeLabel(one, "1");
    WholeLabel(ten, "10");
    TwoFields(metricName, Intended, one, ten, a, b);
    assert FieldName(metricName, Intended, one) == metricName + "_" + "1" == metricName + "_1";
    assert FieldName(metricName, Intended, ten) == metricName + "_" + "10" == metricName + "_10";
  }

  /** Two entries with distinct labels fill two fields, in entry order. */
  lemma TwoFields(metricName: string, how: Labelling, p: string, q: string, a: int, b: int)
    requires Label(how, p) != Label(how, q)
    ensures PercentileFields(metricName, how, [(p, Int(a)), (q, Int(b))]).Ok?
    ensures Keys(PutAll([], PercentileFields(metricName, how, [(p, Int(a)), (q, Int(b))]).value))
         == [FieldName(metricName, how, p), FieldName(metricName, how, q)]
  {
    var items := [(p, Int(a)), (q, Int(b))];
    AddedFieldsInOrder([], metricName, how, items);
    var names := seq(|items|, i requires 0 <= i < |items| => FieldName(metricName, how, items[i].0));
    assert names == [FieldName(metricName, how, p), FieldName(metricName, how, q)];
    assert Keys([]) == [];
  }

  /** A fraction of zeros leaves no tail. */
  lemma {:induction false} ZerosTail(zeros: string)
    requires forall i :: 0 <= i < |zeros| ==> zeros[i] == '0'
    ensures RStrip(zeros, TrailingZero) == []
    ensures FractionTail(zeros) == ""
    decreases |zeros|
  {
    if zeros != [] {
      ZerosTail(zeros[..|zeros| - 1]);
    }
  }

  // ---------------------------------------------------------------------
  // What the evident label promises.

  /** What is left of a fraction: nothing, or the point and the digits up to
      the last non-zero one. */
  function FractionTail(frac: string): (t: string)
    ensures t == [] || t[0] == '.'
  {
    if RStrip(frac, TrailingZero) == [] then "" else "." + RStrip(frac, TrailingZero)
  }

  /** A string whose last character is not stripped is left alone. */
  lemma RStripKeeps(s: string, chars: set<char>)
    requires s != [] && s[|s| - 1] !in chars
    ensures RStrip(s, chars) == s
  {
  }

  /** A string none of whose characters is stripped is left alone. */
  lemma RStripNone(s: string, chars: set<char>)
    requires forall i :: 0 <= i < |s| ==> s[i] !in chars
    ensures RStrip(s, chars) == s
  {
  }

  /** On a decimal label the integer part is kept whole and only the
      fraction loses its trailing zeros (and its point when nothing is left). */
  lemma LabelDecimal(whole: string, frac: string)
    requires '.' !in whole && '.' !in frac
    ensures PercentileLabel(whole + "." + frac) == whole + FractionTail(frac)
  {
    var s := whole + "." + frac;
    assert s[|whole|] == '.';
    RStripConcat(whole + ".", frac, TrailingZero);
    if RStrip(frac, TrailingZero) == [] {
      PointOnly(whole);
    } else {
      var f := RStrip(frac, TrailingZero);
      PointAndDigits(whole + ".", f);
      ConcatAssoc(whole, ".", f);
    }
  }

  /** A fraction of zeros only leaves the integer part. */
  lemma PointOnly(whole: string)
    requires '.' !in whole
    ensures RStrip(RStrip(whole + ".", TrailingZero), DecimalPoint) == whole
  {
    var head := whole + ".";
    RStripKeeps(head, TrailingZero);
    RStripConcat(whole, ".", DecimalPoint);
    assert RStrip(".", DecimalPoint) == [];
    RStripNone(whole, DecimalPoint);
  }

  lemma ConcatAssoc(a: string, b: string, c: string)
    ensures a + b + c == a + (b + c)
  {
  }

  /** Digits after the point that end in a non-zero digit are kept. */
  lemma PointAndDigits(head: string, f: string)
    requires f != [] && f[|f| - 1] != '.'
    ensures RStrip(head + f, DecimalPoint) == head + f
  {
    RStripKeeps(f, DecimalPoint);
    RStripConcat(head, f, DecimalPoint);
  }

  /** The part of a label before its first decimal point. */
  function BeforePoint(s: string): string
  {
    if s == [] || s[0] == '.' then [] else [s[0]] + BeforePoint(s[1..])
  }

  lemma {:induction false} BeforePointOf(whole: string, tail: string)
    requires '.' !in whole
    requires tail == [] || tail[0] == '.'
    ensures BeforePoint(whole + tail) == whole
  {
    if whole != [] {
      assert (whole + tail)[1..] == whole[1..] + tail;
      BeforePointOf(whole[1..], tail);
      assert whole == [whole[0]] + whole[1..];
    } else {
      assert whole + tail == tail;
    }
  }

  /** Intended labels of percentiles with different integer parts never
      collide: `1.000000` and `10.000000` stay apart. */
  lemma LabelsDistinct(w1: string, f1: string, w2: string, f2: string)
    requires '.' !in w1 && '.' !in f1 && '.' !in w2 && '.' !in f2
    requires w1 != w2
    ensures PercentileLabel(w1 + "." + f1) != PercentileLabel(w2 + "." + f2)
  {
    LabelDecimal(w1, f1);
    LabelDecimal(w2, f2);
    BeforePointOf(w1, FractionTail(f1));
    BeforePointOf(w2, FractionTail(f2));
  }
}
