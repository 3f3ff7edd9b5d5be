/**
 The collector's scrape loop as the exporter runs it: for each detected chip,
 for each of its features, test the name prefixes in turn and send one
 constant gauge down the metric channel. Each channel send is an append to
 the returned sequence.
 */
module Collector {
  import opened Prom
  import opened Sensors
  import opened Exporter
  import opened Seqs

  /** The sends for one feature of `chip`: one sample under the first
      family whose prefix the name starts with, or none. */
  method SendFeature<V>(chip: Chip<V>, feature: Feature<V>) returns (sent: seq<Metric<V>>)
    ensures sent == FeatureSamples(chip)(feature)
    ensures |sent| <= 1
  {
    var labels := [feature.labelText, chip.name, chip.adapterName];
    if HasPrefix(feature.name, "fan") {
      sent := [MustNewConstMetric(FanspeedDesc, GaugeValue, feature.value, labels)];
    } else if HasPrefix(feature.name, "temp") {
      sent := [MustNewConstMetric(TemperatureDesc, GaugeValue, feature.value, labels)];
    } else if HasPrefix(feature.name, "in") {
      sent := [MustNewConstMetric(VoltageDesc, GaugeValue, feature.value, labels)];
    } else if HasPrefix(feature.name, "power") {
      sent := [MustNewConstMetric(PowerDesc, GaugeValue, feature.value, labels)];
    } else {
      sent := [];
    }
  }

  /** The sends for every feature of one chip, in feature order. */
  method SendChip<V>(chip: Chip<V>) returns (sent: seq<Metric<V>>)
    ensures sent == FeatureMetrics(chip, chip.features)
  {
    sent := [];
    for j := 0 to |chip.features|
      invariant sent == FeatureMetrics(chip, chip.features[..j])
    {
      var feature := chip.features[j];
      var out := SendFeature(chip, feature);
      FlatMapSnoc(chip.features[..j], feature, FeatureSamples(chip));
      assert chip.features[..j + 1] == chip.features[..j] + [feature];
      sent := sent + out;
    }
    assert chip.features[..|chip.features|] == chip.features;
  }

  /** One scrape of `chips`. The samples sent are exactly those of the
      functional scrape `Exporter.Collect`, so every one is a gauge of an
      advertised family and no send can hit the cardinality panic. */
  method Collect<V>(chips: Snapshot<V>) returns (sent: seq<Metric<V>>)
    ensures sent == Exporter.Collect(chips)
  {
    sent := [];
    for i := 0 to |chips|
      invariant sent == Exporter.Collect(chips[..i])
    {
      var chip := chips[i];
      var out := SendChip(chip);
      FlatMapSnoc(chips[..i], chip, ChipMetrics);
      assert chips[..i + 1] == chips[..i] + [chip];
      sent := sent + out;
    }
    assert chips[..|chips|] == chips;
  }
}
