/**
 The part of the Prometheus client library the exporter relies on: metric
 descriptors, constant metrics and the label-cardinality check performed when
 a constant metric is built.
 */
module Prom {
  import opened Wrappers

  /** How a metric value may evolve between observations. */
  datatype ValueType = CounterValue | GaugeValue | UntypedValue

  /** A metric family descriptor: fully qualified name, help text and the
      ordered names of its variable labels. */
  datatype Desc = Desc(fqName: string, help: string, variableLabels: seq<string>)

  /** A constant metric: one sample of a family, with one label value per
      variable label of its descriptor, positionally. */
  datatype Metric<V> = ConstMetric(desc: Desc, valueType: ValueType, value: V, labelValues: seq<string>)

  /** Builds a constant metric, rejecting a label-value list whose length
      differs from the descriptor's label schema. */
  function NewConstMetric<V>(desc: Desc, valueType: ValueType, value: V, labelValues: seq<string>): (r: Result<Metric<V>>)
    ensures r.Ok? <==> |labelValues| == |desc.variableLabels|
    ensures r.Ok? ==> r.value.desc == desc && r.value.valueType == valueType
                      && r.value.value == value && r.value.labelValues == labelValues
  {
    if |labelValues| != |desc.variableLabels| then
      Err("inconsistent label cardinality")
    else
      Ok(ConstMetric(desc, valueType, value, labelValues))
  }

  /** The panicking variant: the library panics on the error `NewConstMetric`
      would report, so a caller must guarantee the cardinality matches. */
  function MustNewConstMetric<V>(desc: Desc, valueType: ValueType, value: V, labelValues: seq<string>): (m: Metric<V>)
    requires |labelValues| == |desc.variableLabels|
    ensures NewConstMetric(desc, valueType, value, labelValues) == Ok(m)
  {
    NewConstMetric(desc, valueType, value, labelValues).value
  }

  /** Position of the first occurrence of `name` in `names`. */
  function IndexOf(names: seq<string>, name: string): (r: Option<nat>)
    ensures r.Some? ==> r.value < |names| && names[r.value] == name
                        && forall j :: 0 <= j < r.value ==> names[j] != name
    ensures r.None? <==> name !in names
  {
    if |names| == 0 then None
    else if names[0] == name then Some(0)
    else match IndexOf(names[1..], name)
      case None => None
      case Some(i) => Some(i + 1)
  }

  /** The value a metric carries for the label called `name`, as the
      exposition format would render it (`name="value"`). */
  function LabelValue<V>(m: Metric<V>, name: string): (r: Option<string>)
    ensures r.Some? ==> exists i :: 0 <= i < |m.labelValues| && i < |m.desc.variableLabels|
                                    && m.desc.variableLabels[i] == name && m.labelValues[i] == r.value
    ensures r.None? <==> name !in m.desc.variableLabels || |m.labelValues| <= IndexOf(m.desc.variableLabels, name).value
  {
    match IndexOf(m.desc.variableLabels, name)
    case None => None
    case Some(i) => if i < |m.labelValues| then Some(m.labelValues[i]) else None
  }
}
