/**
 * The `teamcity_last_build_status` gauge: one value per label tuple. Setting a
 * value overwrites the previous one for that exact tuple; no tuple is ever
 * removed.
 */
module Gauge {

  /** The gauge's labels, in declaration order: build_type_name, template_id, build_type_id, build_url. */
  datatype Labels = Labels(buildTypeName: string, templateId: string, buildTypeId: string, buildUrl: string)

  /** One `gauge.labels(...).set(value)`. */
  datatype Write = Write(labels: Labels, value: int)

  class BuildStatusGauge {
    var series: map<Labels, int>

    constructor ()
      ensures series == map[]
    {
      series := map[];
    }

    method Set(labels: Labels, value: int)
      modifies this
      ensures series == old(series)[labels := value]
    {
      series := series[labels := value];
    }
  }

  /** The label tuples a sequence of writes touches. */
  function WrittenLabels(writes: seq<Write>): set<Labels>
  {
    set w | w in writes :: w.labels
  }

  /** The series after performing `writes` in order, starting from `series`. */
  function Apply(series: map<Labels, int>, writes: seq<Write>): map<Labels, int>
  {
    if writes == [] then series
    else
      var last := writes[|writes| - 1];
      Apply(series, writes[..|writes| - 1])[last.labels := last.value]
  }

  /** No tuple is ever removed; the tuples present afterwards are the old ones and the written ones. */
  lemma {:induction false} ApplyKeys(series: map<Labels, int>, writes: seq<Write>)
    ensures Apply(series, writes).Keys == series.Keys + WrittenLabels(writes)
  {
    if writes != [] {
      var init := writes[..|writes| - 1];
      var last := writes[|writes| - 1];
      ApplyKeys(series, init);
      assert writes == init + [last];
      assert WrittenLabels(writes) == WrittenLabels(init) + {last.labels};
    }
  }

  /** Performing two batches of writes is performing their concatenation. */
  lemma {:induction false} ApplyAppend(series: map<Labels, int>, first: seq<Write>, second: seq<Write>)
    ensures Apply(series, first + second) == Apply(Apply(series, first), second)
    decreases |second|
  {
    if second == [] {
      assert first + second == first;
    } else {
      var both := first + second;
      var init := second[..|second| - 1];
      var last := second[|second| - 1];
      assert both[..|both| - 1] == first + init;
      assert both[|both| - 1] == last;
      ApplyAppend(series, first, init);
      calc {
        Apply(series, both);
        Apply(series, first + init)[last.labels := last.value];
        Apply(Apply(series, first), init)[last.labels := last.value];
        Apply(Apply(series, first), second);
      }
    }
  }

  /** A tuple no write names keeps its presence and its value. */
  lemma {:induction false} ApplyUntouched(series: map<Labels, int>, writes: seq<Write>, k: Labels)
    requires forall w :: w in writes ==> w.labels != k
    ensures k in Apply(series, writes) <==> k in series
    ensures k in series ==> Apply(series, writes)[k] == series[k]
  {
    if writes != [] {
      var init := writes[..|writes| - 1];
      assert forall w :: w in init ==> w in writes;
      assert writes[|writes| - 1] in writes;
      ApplyUntouched(series, init, k);
    }
  }

  /** When every write naming `k` sets `v`, and one does, the tuple ends up at `v`. */
  lemma {:induction false} ApplyAgreeing(series: map<Labels, int>, writes: seq<Write>, k: Labels, v: int)
    requires Write(k, v) in writes
    requires forall w :: w in writes && w.labels == k ==> w.value == v
    ensures k in Apply(series, writes) && Apply(series, writes)[k] == v
  {
    var init := writes[..|writes| - 1];
    var last := writes[|writes| - 1];
    assert writes == init + [last];
    assert forall w :: w in init ==> w in writes;
    if last.labels != k {
      ApplyAgreeing(series, init, k, v);
    }
  }

  /** Writes overwrite: the last write to a tuple decides its value. */
  lemma LastWriteWins(series: map<Labels, int>, before: seq<Write>, w: Write, after: seq<Write>)
    requires forall x :: x in after ==> x.labels != w.labels
    ensures w.labels in Apply(series, before + [w] + after)
    ensures Apply(series, before + [w] + after)[w.labels] == w.value
  {
    ApplyAppend(series, before + [w], after);
    assert (before + [w])[..|before|] == before;
    ApplyUntouched(Apply(series, before + [w]), after, w.labels);
  }

  /** Whatever a tuple held before, overwriting it at the end erases the difference. */
  lemma {:induction false} ApplyOverwritten(series: map<Labels, int>, writes: seq<Write>, k: Labels, v: int)
    ensures Apply(series[k := v], writes)[k := v] == Apply(series, writes)[k := v]
    decreases |writes|
  {
    if writes != [] {
      var init := writes[..|writes| - 1];
      var last := writes[|writes| - 1];
      ApplyOverwritten(series, init, k, v);
      var a := Apply(series[k := v], init);
      var b := Apply(series, init);
      if last.labels == k {
        assert a[k := last.value][k := v] == a[k := v];
        assert b[k := last.value][k := v] == b[k := v];
      } else {
        assert a[last.labels := last.value][k := v] == a[k := v][last.labels := last.value];
        assert b[last.labels := last.value][k := v] == b[k := v][last.labels := last.value];
      }
    }
  }

  /** Performing the same writes a second time changes nothing. */
  lemma {:induction false} ApplyIdempotent(series: map<Labels, int>, writes: seq<Write>)
    ensures Apply(Apply(series, writes), writes) == Apply(series, writes)
    decreases |writes|
  {
    if writes != [] {
      var init := writes[..|writes| - 1];
      var last := writes[|writes| - 1];
      ApplyIdempotent(series, init);
      ApplyOverwritten(Apply(series, init), init, last.labels, last.value);
    }
  }
}
