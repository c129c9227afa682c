/**
 * The part of the Prometheus client model both remote-write clients read:
 * a collected metric's description and its `dto.Metric` form, the reserved
 * label names, and the counter > gauge > untyped choice of a sample value.
 */
module PromMetrics {
  import opened Wrappers
  import opened GoTypes

  datatype LabelPair = LabelPair(name: string, value: string)

  /** `dto.Metric`: label pairs in order, and whichever of the three value kinds are set. */
  datatype DtoMetric = DtoMetric(labels: seq<LabelPair>, counter: Option<Float64>, gauge: Option<Float64>, untyped: Option<Float64>)

  /**
   * One metric received from the registry: its description text, the names
   * the client's regular expressions extract from it, and the outcome of
   * `metric.Write` (`None` when it fails).
   */
  datatype CollectedMetric = CollectedMetric(desc: string, fqName: Option<string>, help: Option<string>, written: Option<DtoMetric>)

  /** A `*prometheus.Registry`; only its identity matters here. */
  class Registry {
    constructor () {}
  }

  datatype MetricType = Counter | Gauge | Unspecified

  datatype TypedValue = TypedValue(kind: MetricType, value: Float64)

  const DropLabels: seq<string> := ["__name__", "instance", "job"]

  predicate Reserved(name: string) {
    name in DropLabels
  }

  /** The value sent for `m`: its counter if set, else its gauge, else its untyped value. */
  function SelectValue(m: DtoMetric): (r: Option<TypedValue>)
    ensures r.None? <==> m.counter.None? && m.gauge.None? && m.untyped.None?
    ensures r.Some? && r.value.kind == Counter ==> m.counter == Some(r.value.value)
    ensures r.Some? && r.value.kind == Gauge ==> m.counter.None? && m.gauge == Some(r.value.value)
    ensures r.Some? && r.value.kind == Unspecified ==>
      m.counter.None? && m.gauge.None? && m.untyped == Some(r.value.value)
  {
    if m.counter.Some? then Some(TypedValue(Counter, m.counter.value))
    else if m.gauge.Some? then Some(TypedValue(Gauge, m.gauge.value))
    else if m.untyped.Some? then Some(TypedValue(Unspecified, m.untyped.value))
    else None
  }

  /** The metric's own labels that are sent: those not named like a reserved label, in order. */
  function OwnLabels(ls: seq<LabelPair>): (r: seq<LabelPair>)
    ensures |r| <= |ls|
    ensures forall i :: 0 <= i < |r| ==> !Reserved(r[i].name)
  {
    if ls == [] then []
    else
      var last := ls[|ls| - 1];
      OwnLabels(ls[..|ls| - 1]) + (if Reserved(last.name) then [] else [last])
  }

  /** Exactly the labels with unreserved names are kept. */
  lemma {:induction false} OwnLabelsMembers(ls: seq<LabelPair>, l: LabelPair)
    ensures l in OwnLabels(ls) <==> l in ls && !Reserved(l.name)
  {
    if ls != [] {
      var init := ls[..|ls| - 1];
      OwnLabelsMembers(init, l);
      assert ls == init + [ls[|ls| - 1]];
    }
  }

  /** Filtering distributes over concatenation, so the kept labels keep their relative order. */
  lemma {:induction false} OwnLabelsAppend(a: seq<LabelPair>, b: seq<LabelPair>)
    ensures OwnLabels(a + b) == OwnLabels(a) + OwnLabels(b)
  {
    if b == [] {
      assert a + b == a;
    } else {
      var b' := b[..|b| - 1];
      assert (a + b)[..|a + b| - 1] == a + b';
      OwnLabelsAppend(a, b');
    }
  }

  /** A metric with no reserved label names keeps all its labels unchanged. */
  lemma {:induction false} OwnLabelsOfUnreserved(ls: seq<LabelPair>)
    requires forall i :: 0 <= i < |ls| ==> !Reserved(ls[i].name)
    ensures OwnLabels(ls) == ls
  {
    if ls != [] {
      var init := ls[..|ls| - 1];
      OwnLabelsOfUnreserved(init);
      assert init + [ls[|ls| - 1]] == ls;
    }
  }

  /** Label pairs as the flat name, value, name, value, ... list the v2 protocol symbolizes. */
  function Flatten(ps: seq<LabelPair>): (r: seq<string>)
    ensures |r| == 2 * |ps|
  {
    if ps == [] then []
    else Flatten(ps[..|ps| - 1]) + [ps[|ps| - 1].name, ps[|ps| - 1].value]
  }

  /** Pair `i` sits at positions `2 * i` and `2 * i + 1`. */
  lemma {:induction false} FlattenIndex(ps: seq<LabelPair>, i: nat)
    requires i < |ps|
    ensures Flatten(ps)[2 * i] == ps[i].name && Flatten(ps)[2 * i + 1] == ps[i].value
  {
    var init := ps[..|ps| - 1];
    if i < |init| {
      FlattenIndex(init, i);
    }
  }

  lemma {:induction false} FlattenAppend(a: seq<LabelPair>, b: seq<LabelPair>)
    ensures Flatten(a + b) == Flatten(a) + Flatten(b)
  {
    if b == [] {
      assert a + b == a;
    } else {
      var b' := b[..|b| - 1];
      assert (a + b)[..|a + b| - 1] == a + b';
      FlattenAppend(a, b');
    }
  }
}
