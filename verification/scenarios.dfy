/**
 Concrete scrapes, with readings as reals: what the exporter publishes for
 small snapshots.
 */
module Scenarios {
  import opened Wrappers
  import opened Prom
  import opened Sensors
  import opened Seqs
  import opened Exporter
  import opened ClassifyProperties

  /** A single-chip scrape is that chip's samples. */
  lemma CollectOneChip<V>(chip: Chip<V>)
    ensures Collect([chip]) == FeatureMetrics(chip, chip.features)
  {
    assert FlatMap([chip], ChipMetrics) == ChipMetrics(chip) + FlatMap([chip][1..], ChipMetrics);
  }

  /** The samples of a two-feature chip, feature by feature. */
  lemma FeatureMetricsTwo<V>(chip: Chip<V>, x: Feature<V>, y: Feature<V>)
    ensures FeatureMetrics(chip, [x, y]) == FeatureSamples(chip)(x) + FeatureSamples(chip)(y)
  {
    FlatMapSnoc([x], y, FeatureSamples(chip));
    assert [x] + [y] == [x, y];
    assert FlatMap([x], FeatureSamples(chip))
        == FeatureSamples(chip)(x) + FlatMap([x][1..], FeatureSamples(chip));
  }

  /** A `temp1` feature labelled `CPU` reading 45.0 on chip `chip0` of the
      `ISA adapter` becomes one temperature gauge with those labels. */
  lemma TemperatureFeature()
    ensures var chip := Chip("chip0", "ISA adapter", [Feature("temp1", "CPU", 45.0)]);
            var out := Collect([chip]);
            && |out| == 1
            && out[0].desc.fqName == "sensor_lm_temperature_celsius"
            && out[0].valueType == GaugeValue
            && out[0].value == 45.0
            && LabelValue(out[0], "temptype") == Some("CPU")
            && LabelValue(out[0], "chip") == Some("chip0")
            && LabelValue(out[0], "adaptor") == Some("ISA adapter")
  {
  }

  /** A feature named `unknown3` yields no sample. */
  lemma UnknownFeature(chipName: string, adapterName: string, text: string, value: real)
    ensures Collect([Chip(chipName, adapterName, [Feature("unknown3", text, value)])]) == []
  {
    var x := Feature("unknown3", text, value);
    var chip := Chip(chipName, adapterName, [x]);
    CollectOneChip(chip);
    ClassifyUnknown();
    assert FlatMap([x], FeatureSamples(chip)) == FeatureSamples(chip)(x) + FlatMap([x][1..], FeatureSamples(chip));
  }

  /** With no chips detected the scrape is empty, while the advertised
      schema still has its four families. */
  lemma NoChips()
    ensures Collect<real>([]) == []
    ensures |Describe()| == 4
  {
  }

  /** A `fan1` and an `in0` feature on one chip give exactly two samples, a
      fan speed then a voltage, sharing the chip and adapter labels. */
  lemma FanAndVoltageOnOneChip(chipName: string, adapterName: string)
    ensures var chip := Chip(chipName, adapterName,
                             [Feature("fan1", "CPU fan", 1200.0), Feature("in0", "Vcore", 12.1)]);
            var out := Collect([chip]);
            && |out| == 2
            && out[0].desc == DescOf(FanSpeed) && out[0].value == 1200.0
            && out[1].desc == DescOf(Voltage) && out[1].value == 12.1
            && out[0].labelValues[1..] == out[1].labelValues[1..] == [chipName, adapterName]
  {
    var x := Feature("fan1", "CPU fan", 1200.0);
    var y := Feature("in0", "Vcore", 12.1);
    var chip := Chip(chipName, adapterName, [x, y]);
    CollectOneChip(chip);
    FeatureMetricsTwo(chip, x, y);
    ClassifyExact("fan1", FanSpeed);
    ClassifyExact("in0", Voltage);
    var m0 := FeatureMetric(chip, FanSpeed, x);
    var m1 := FeatureMetric(chip, Voltage, y);
    assert FeatureSamples(chip)(x) == [m0];
    assert FeatureSamples(chip)(y) == [m1];
    assert Collect([chip]) == [m0, m1];
  }
}
