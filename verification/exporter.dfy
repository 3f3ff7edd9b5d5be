/**
 The lm-sensors collector: the four metric-family descriptors it advertises,
 the name-prefix classification of sensor features, and the functional
 scrape: one scrape as a pure function of the sensor snapshot.
 */
module Exporter {
  import opened Wrappers
  import opened Prom
  import opened Sensors
  import opened Seqs

  /** The four metric families the exporter publishes. */
  datatype Family = FanSpeed | Voltage | Power | Temperature

  const FanspeedDesc: Desc :=
    Desc("sensor_lm_fan_speed_rpm", "fan speed (rotations per minute).", ["fantype", "chip", "adaptor"])

  const VoltageDesc: Desc :=
    Desc("sensor_lm_voltage_volts", "voltage in volts", ["intype", "chip", "adaptor"])

  const PowerDesc: Desc :=
    Desc("sensor_lm_power_watts", "power in watts", ["powertype", "chip", "adaptor"])

  const TemperatureDesc: Desc :=
    Desc("sensor_lm_temperature_celsius", "temperature in celsius", ["temptype", "chip", "adaptor"])

  /** Name of the label that carries a feature's own label, per family. */
  function TypeLabel(f: Family): string {
    match f
    case FanSpeed => "fantype"
    case Voltage => "intype"
    case Power => "powertype"
    case Temperature => "temptype"
  }

  /** Exposed metric name of each family. */
  function MetricName(f: Family): string {
    match f
    case FanSpeed => "sensor_lm_fan_speed_rpm"
    case Voltage => "sensor_lm_voltage_volts"
    case Power => "sensor_lm_power_watts"
    case Temperature => "sensor_lm_temperature_celsius"
  }

  /** The descriptor of a family: its metric name, and a schema of the family's type label,
      then `chip`, then `adaptor`, whose three names are distinct. */
  function DescOf(f: Family): (d: Desc)
    ensures d.fqName == MetricName(f)
    ensures d.variableLabels == [TypeLabel(f), "chip", "adaptor"]
    ensures forall i, j :: 0 <= i < j < |d.variableLabels| ==> d.variableLabels[i] != d.variableLabels[j]
  {
    match f
    case FanSpeed => FanspeedDesc
    case Voltage => VoltageDesc
    case Power => PowerDesc
    case Temperature => TemperatureDesc
  }

  /** The descriptors advertised by `Describe`, in emission order. It takes
      no snapshot: the schema is known before any sensor is read. */
  function Describe(): (r: seq<Desc>)
    ensures |r| == 4
    ensures r[0] == DescOf(FanSpeed) && r[1] == DescOf(Power)
         && r[2] == DescOf(Temperature) && r[3] == DescOf(Voltage)
    ensures forall f: Family :: DescOf(f) in r
    ensures forall d :: d in r ==> exists f: Family :: d == DescOf(f)
    ensures forall i, j :: 0 <= i < j < |r| ==> r[i].fqName != r[j].fqName
  {
    [FanspeedDesc, PowerDesc, TemperatureDesc, VoltageDesc]
  }

  /** Case-sensitive string prefix test, as Go's `strings.HasPrefix`. */
  function HasPrefix(s: string, prefix: string): (b: bool)
    ensures b <==> prefix <= s
  {
    |s| >= |prefix| && s[..|prefix|] == prefix
  }

  /** The name prefix that selects each family. */
  function Prefix(f: Family): string {
    match f
    case FanSpeed => "fan"
    case Temperature => "temp"
    case Voltage => "in"
    case Power => "power"
  }

  /** First-match classification of a feature name, testing `fan`, then
      `temp`, then `in`, then `power`; a name matching none has no family. */
  function Classify(name: string): (r: Option<Family>)
    ensures r.Some? ==> HasPrefix(name, Prefix(r.value))
    ensures r.None? <==> forall f: Family :: !HasPrefix(name, Prefix(f))
  {
    if HasPrefix(name, "fan") then Some(FanSpeed)
    else if HasPrefix(name, "temp") then Some(Temperature)
    else if HasPrefix(name, "in") then Some(Voltage)
    else if HasPrefix(name, "power") then Some(Power)
    else None
  }

  /** The classification order as an explicit table of (prefix, family). */
  const Table: seq<(string, Family)> :=
    [("fan", FanSpeed), ("temp", Temperature), ("in", Voltage), ("power", Power)]

  /** First-match lookup of a name in a (prefix, family) table. */
  function FirstMatch(t: seq<(string, Family)>, name: string): (r: Option<Family>)
    ensures r.Some? ==> exists i :: 0 <= i < |t| && t[i].1 == r.value && HasPrefix(name, t[i].0)
    ensures r.None? <==> forall i :: 0 <= i < |t| ==> !HasPrefix(name, t[i].0)
  {
    if |t| == 0 then None
    else if HasPrefix(name, t[0].0) then Some(t[0].1)
    else FirstMatch(t[1..], name)
  }

  /** The sample emitted for one classified feature of a chip: a gauge of the
      family's descriptor, labelled (feature label, chip name, adapter name),
      carrying the reading unchanged. */
  function FeatureMetric<V>(chip: Chip<V>, f: Family, feature: Feature<V>): (m: Metric<V>)
    ensures m.desc == DescOf(f) && m.valueType == GaugeValue && m.value == feature.value
    ensures m.labelValues == [feature.labelText, chip.name, chip.adapterName]
  {
    MustNewConstMetric(DescOf(f), GaugeValue, feature.value, [feature.labelText, chip.name, chip.adapterName])
  }

  /** A gauge of an advertised family whose label values match its schema in
      number. */
  predicate Emittable<V>(m: Metric<V>) {
    && m.valueType == GaugeValue
    && m.desc in Describe()
    && |m.labelValues| == |m.desc.variableLabels| == 3
  }

  /** An emittable sample of `chip`: the last two label values are the chip's
      name and adapter name. */
  predicate ChipSample<V>(chip: Chip<V>, m: Metric<V>) {
    && Emittable(m)
    && m.labelValues[1] == chip.name
    && m.labelValues[2] == chip.adapterName
  }

  /** The samples one feature of `chip` contributes: one under its family,
      or none when its name selects no family. */
  function FeatureSamples<V>(chip: Chip<V>): Feature<V> -> seq<Metric<V>> {
    (feature: Feature<V>) =>
      match Classify(feature.name)
      case None => []
      case Some(f) => [FeatureMetric(chip, f, feature)]
  }

  /** The samples one chip contributes from `features`, in feature order. */
  function FeatureMetrics<V>(chip: Chip<V>, features: seq<Feature<V>>): seq<Metric<V>> {
    FlatMap(features, FeatureSamples(chip))
  }

  /** The samples of one chip, from all its features. */
  function ChipMetrics<V>(chip: Chip<V>): seq<Metric<V>> {
    FeatureMetrics(chip, chip.features)
  }

  /** One scrape: chip by chip, feature by feature, every classified feature
      becomes one sample. */
  function Collect<V>(chips: Snapshot<V>): seq<Metric<V>> {
    FlatMap(chips, ChipMetrics)
  }
}
