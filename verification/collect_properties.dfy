/**
 Properties of one scrape. Besides the functional scrape `Collect`, a
 reference semantics flattens the snapshot into (chip, feature) readings,
 keeps the classified ones and renders each as a sample; the two agree
 position by position.
 */
module CollectProperties {
  import opened Wrappers
  import opened Prom
  import opened Sensors
  import opened Exporter
  import opened Seqs
  import opened ClassifyProperties

  /** One feature read from one chip. */
  datatype Reading<V> = Reading(chip: Chip<V>, feature: Feature<V>)

  /** The readings of `features` on `chip`, in feature order. */
  function ReadingsOf<V>(chip: Chip<V>, features: seq<Feature<V>>): (r: seq<Reading<V>>)
    ensures |r| == |features|
    ensures forall k :: 0 <= k < |r| ==> r[k] == Reading(chip, features[k])
  {
    seq(|features|, k requires 0 <= k < |features| => Reading(chip, features[k]))
  }

  /** Every reading of a snapshot: chip order, then feature order. */
  function Readings<V>(chips: Snapshot<V>): seq<Reading<V>> {
    if |chips| == 0 then []
    else ReadingsOf(chips[0], chips[0].features) + Readings(chips[1..])
  }

  /** The classified readings, each paired with its family, in order. */
  function Classified<V>(rs: seq<Reading<V>>): seq<(Reading<V>, Family)> {
    if |rs| == 0 then []
    else match Classify(rs[0].feature.name)
      case None => Classified(rs[1..])
      case Some(f) => [(rs[0], f)] + Classified(rs[1..])
  }

  /** Each classified reading rendered as its sample. */
  function Render<V>(ps: seq<(Reading<V>, Family)>): (r: seq<Metric<V>>)
    ensures |r| == |ps|
    ensures forall k :: 0 <= k < |r| ==> r[k] == FeatureMetric(ps[k].0.chip, ps[k].1, ps[k].0.feature)
  {
    seq(|ps|, k requires 0 <= k < |ps| => FeatureMetric(ps[k].0.chip, ps[k].1, ps[k].0.feature))
  }

  /** Number of features of `features` that some family accepts. */
  function ClassifiableFeatures<V>(features: seq<Feature<V>>): nat {
    if |features| == 0 then 0
    else (if Classify(features[0].name).Some? then 1 else 0) + ClassifiableFeatures(features[1..])
  }

  /** Number of classifiable features summed over all chips. */
  function ClassifiableCount<V>(chips: Snapshot<V>): nat {
    if |chips| == 0 then 0
    else ClassifiableFeatures(chips[0].features) + ClassifiableCount(chips[1..])
  }

  /** The features of `features` that some family accepts, in order. */
  function KeepClassifiable<V>(features: seq<Feature<V>>): (r: seq<Feature<V>>)
    ensures forall k :: 0 <= k < |r| ==> Classify(r[k].name).Some?
  {
    if |features| == 0 then []
    else if Classify(features[0].name).Some? then [features[0]] + KeepClassifiable(features[1..])
    else KeepClassifiable(features[1..])
  }

  /** The snapshot with every unclassifiable feature removed. */
  function StripUnclassifiable<V>(chips: Snapshot<V>): (r: Snapshot<V>)
    ensures |r| == |chips|
    ensures forall k :: 0 <= k < |r| ==>
              r[k] == Chip(chips[k].name, chips[k].adapterName, KeepClassifiable(chips[k].features))
  {
    seq(|chips|, k requires 0 <= k < |chips| =>
      Chip(chips[k].name, chips[k].adapterName, KeepClassifiable(chips[k].features)))
  }

  // ----- Shape: every sample is an advertised gauge with a full label tuple

  /** A feature yields a sample exactly when its name selects a family, and
      that sample renders the feature under that family. */
  lemma FeatureSamplesMembers<V>(chip: Chip<V>, x: Feature<V>, m: Metric<V>)
    ensures m in FeatureSamples(chip)(x) <==>
              exists f :: Classify(x.name) == Some(f) && m == FeatureMetric(chip, f, x)
  {
  }

  /** Every sample of a chip is an emittable gauge carrying the chip's name
      and adapter name as its last two label values. */
  lemma FeatureMetricsShape<V>(chip: Chip<V>, features: seq<Feature<V>>)
    ensures forall m :: m in FeatureMetrics(chip, features) ==> ChipSample(chip, m)
  {
    forall m | m in FeatureMetrics(chip, features) ensures ChipSample(chip, m) {
      FlatMapMembers(features, FeatureSamples(chip), m);
      var x :| x in features && m in FeatureSamples(chip)(x);
      var f := Classify(x.name).value;
      assert m == FeatureMetric(chip, f, x);
      assert m.desc in Describe();
    }
  }

  /** Read by label name, a sample carries the feature's label under its
      family's type label, the chip's name under `chip` and the adapter name
      under `adaptor`. */
  lemma SampleLabels<V>(chip: Chip<V>, f: Family, x: Feature<V>)
    ensures LabelValue(FeatureMetric(chip, f, x), TypeLabel(f)) == Some(x.labelText)
    ensures LabelValue(FeatureMetric(chip, f, x), "chip") == Some(chip.name)
    ensures LabelValue(FeatureMetric(chip, f, x), "adaptor") == Some(chip.adapterName)
  {
  }

  /** Every sample of a scrape is a gauge of an advertised family whose label
      values match its schema in number, so the cardinality check of the
      metric constructor accepts it unchanged. */
  lemma CollectEmittable<V>(chips: Snapshot<V>)
    ensures forall m :: m in Collect(chips) ==> Emittable(m)
    ensures forall m :: m in Collect(chips) ==>
              NewConstMetric(m.desc, m.valueType, m.value, m.labelValues) == Ok(m)
  {
    forall m | m in Collect(chips) ensures Emittable(m) {
      FlatMapMembers(chips, ChipMetrics, m);
      var c :| c in chips && m in ChipMetrics(c);
      FeatureMetricsShape(c, c.features);
    }
  }

  // ----- Order: a scrape is a concatenation, chip by chip and feature by feature

  /** Chip order is kept across a scrape. */
  lemma CollectAppend<V>(a: Snapshot<V>, b: Snapshot<V>)
    ensures Collect(a + b) == Collect(a) + Collect(b)
  {
    FlatMapAppend(a, b, ChipMetrics);
  }

  /** The samples of chip `i` form one contiguous block, between those of the
      chips before it and those of the chips after it. */
  lemma ChipBlock<V>(chips: Snapshot<V>, i: nat)
    requires i < |chips|
    ensures Collect(chips) ==
              Collect(chips[..i]) + FeatureMetrics(chips[i], chips[i].features) + Collect(chips[i + 1..])
  {
    assert chips == chips[..i] + ([chips[i]] + chips[i + 1..]);
    FlatMapAppend(chips[..i], [chips[i]] + chips[i + 1..], ChipMetrics);
    FlatMapAppend([chips[i]], chips[i + 1..], ChipMetrics);
    assert FlatMap([chips[i]], ChipMetrics) == ChipMetrics(chips[i]) + FlatMap([chips[i]][1..], ChipMetrics);
  }

  // ----- The reference semantics: flatten, filter, render

  lemma {:induction false} ClassifiedAppend<V>(a: seq<Reading<V>>, b: seq<Reading<V>>)
    ensures Classified(a + b) == Classified(a) + Classified(b)
  {
    if |a| > 0 {
      assert (a + b)[0] == a[0];
      assert (a + b)[1..] == a[1..] + b;
      ClassifiedAppend(a[1..], b);
    } else {
      assert a + b == b;
    }
  }

  lemma RenderAppend<V>(a: seq<(Reading<V>, Family)>, b: seq<(Reading<V>, Family)>)
    ensures Render(a + b) == Render(a) + Render(b)
  {
  }

  /** One chip's samples are its classified readings, rendered. */
  lemma {:induction false} FeatureMetricsIsRender<V>(chip: Chip<V>, features: seq<Feature<V>>)
    ensures FeatureMetrics(chip, features) == Render(Classified(ReadingsOf(chip, features)))
  {
    if |features| > 0 {
      var rs := ReadingsOf(chip, features);
      assert rs[1..] == ReadingsOf(chip, features[1..]);
      FeatureMetricsIsRender(chip, features[1..]);
      match Classify(features[0].name)
      case None =>
      case Some(f) =>
        RenderAppend([(rs[0], f)], Classified(rs[1..]));
    }
  }

  /** The chip-by-chip scrape equals the flatten-filter-render reference:
      samples appear in chip order, then feature order, one per classified
      feature, each rendered from exactly that feature and its chip. */
  lemma {:induction false} CollectIsRender<V>(chips: Snapshot<V>)
    ensures Collect(chips) == Render(Classified(Readings(chips)))
  {
    if |chips| > 0 {
      var head := ReadingsOf(chips[0], chips[0].features);
      CollectIsRender(chips[1..]);
      FeatureMetricsIsRender(chips[0], chips[0].features);
      ClassifiedAppend(head, Readings(chips[1..]));
      RenderAppend(Classified(head), Classified(Readings(chips[1..])));
      assert Collect(chips) == ChipMetrics(chips[0]) + Collect(chips[1..]);
    }
  }

  // ----- Membership: what is emitted, and what is not

  /** A reading is in a snapshot's readings exactly when its chip is in the
      snapshot and its feature belongs to that chip. */
  lemma {:induction false} ReadingsMembers<V>(chips: Snapshot<V>, r: Reading<V>)
    ensures r in Readings(chips) <==> r.chip in chips && r.feature in r.chip.features
  {
    if |chips| > 0 {
      ReadingsMembers(chips[1..], r);
      var head := ReadingsOf(chips[0], chips[0].features);
      if r.chip == chips[0] && r.feature in r.chip.features {
        var k :| 0 <= k < |chips[0].features| && chips[0].features[k] == r.feature;
        assert head[k] == r;
      }
      assert r in head ==> r.chip == chips[0];
      assert r.chip in chips <==> r.chip == chips[0] || r.chip in chips[1..];
    }
  }

  /** A (reading, family) pair survives classification exactly when the
      reading is there and its feature name selects that family. */
  lemma {:induction false} ClassifiedMembers<V>(rs: seq<Reading<V>>, r: Reading<V>, f: Family)
    ensures (r, f) in Classified(rs) <==> r in rs && Classify(r.feature.name) == Some(f)
  {
    if |rs| > 0 {
      ClassifiedMembers(rs[1..], r, f);
      assert r in rs <==> r == rs[0] || r in rs[1..];
    }
  }

  /** `m` is the rendering of a feature of a detected chip whose name
      selects `m`'s family. */
  ghost predicate RenderedFrom<V>(chips: Snapshot<V>, m: Metric<V>) {
    exists c, x, f :: c in chips && x in c.features && Classify(x.name) == Some(f)
                      && m == FeatureMetric(c, f, x)
  }

  /** Soundness: every emitted sample renders a classified feature. */
  lemma CollectSound<V>(chips: Snapshot<V>, m: Metric<V>)
    requires m in Collect(chips)
    ensures RenderedFrom(chips, m)
  {
    CollectIsRender(chips);
    var ps := Classified(Readings(chips));
    var k :| 0 <= k < |ps| && Render(ps)[k] == m;
    var p := ps[k];
    assert p in ps;
    ClassifiedMembers(Readings(chips), p.0, p.1);
    ReadingsMembers(chips, p.0);
    assert m == FeatureMetric(p.0.chip, p.1, p.0.feature);
  }

  /** Completeness: every classified feature is emitted. */
  lemma CollectComplete<V>(chips: Snapshot<V>, c: Chip<V>, x: Feature<V>, f: Family)
    requires c in chips && x in c.features && Classify(x.name) == Some(f)
    ensures FeatureMetric(c, f, x) in Collect(chips)
  {
    CollectIsRender(chips);
    var ps := Classified(Readings(chips));
    ReadingsMembers(chips, Reading(c, x));
    ClassifiedMembers(Readings(chips), Reading(c, x), f);
    var k :| 0 <= k < |ps| && ps[k] == (Reading(c, x), f);
    assert Render(ps)[k] == FeatureMetric(c, f, x);
  }

  /** A sample is emitted if and only if it is the rendering of a feature of
      a detected chip whose name selects the sample's family. */
  lemma CollectMembers<V>(chips: Snapshot<V>, m: Metric<V>)
    ensures m in Collect(chips) <==> RenderedFrom(chips, m)
  {
    if m in Collect(chips) {
      CollectSound(chips, m);
    }
    if RenderedFrom(chips, m) {
      var c, x, f :| c in chips && x in c.features && Classify(x.name) == Some(f)
                     && m == FeatureMetric(c, f, x);
      CollectComplete(chips, c, x, f);
    }
  }

  /** Every classifiable feature of every chip yields a sample of its family,
      labelled with the feature's label, the chip's name and its adapter name,
      carrying the reading unchanged. */
  lemma EveryClassifiedFeatureEmitted<V>(chips: Snapshot<V>, c: Chip<V>, x: Feature<V>, f: Family)
    requires c in chips && x in c.features && HasPrefix(x.name, Prefix(f))
    ensures exists m :: m in Collect(chips) && m.desc == DescOf(f) && m.valueType == GaugeValue
                        && m.value == x.value && m.labelValues == [x.labelText, c.name, c.adapterName]
  {
    ClassifyExact(x.name, f);
    CollectComplete(chips, c, x, f);
  }

  /** Number of samples: one per classifiable feature, summed over chips. */
  lemma {:induction false} CollectLength<V>(chips: Snapshot<V>)
    ensures |Collect(chips)| == ClassifiableCount(chips)
  {
    if |chips| > 0 {
      CollectLength(chips[1..]);
      FeatureMetricsLength(chips[0], chips[0].features);
    }
  }

  lemma {:induction false} FeatureMetricsLength<V>(chip: Chip<V>, features: seq<Feature<V>>)
    ensures |FeatureMetrics(chip, features)| == ClassifiableFeatures(features)
  {
    if |features| > 0 {
      FeatureMetricsLength(chip, features[1..]);
    }
  }

  /** Unclassifiable features contribute nothing: removing them all leaves
      the scrape unchanged. */
  lemma {:induction false} StripUnclassifiableKeepsCollect<V>(chips: Snapshot<V>)
    ensures Collect(StripUnclassifiable(chips)) == Collect(chips)
  {
    if |chips| > 0 {
      var s := StripUnclassifiable(chips);
      assert s[1..] == StripUnclassifiable(chips[1..]);
      StripUnclassifiableKeepsCollect(chips[1..]);
      KeepClassifiableKeepsMetrics(chips[0], s[0], chips[0].features);
    }
  }

  lemma {:induction false} KeepClassifiableKeepsMetrics<V>(chip: Chip<V>, chip': Chip<V>, features: seq<Feature<V>>)
    requires chip'.name == chip.name && chip'.adapterName == chip.adapterName
    ensures FeatureMetrics(chip', KeepClassifiable(features)) == FeatureMetrics(chip, features)
  {
    if |features| > 0 {
      KeepClassifiableKeepsMetrics(chip, chip', features[1..]);
      var kept := KeepClassifiable(features);
      if Classify(features[0].name).Some? {
        assert kept[1..] == KeepClassifiable(features[1..]);
      }
    }
  }

  /** A scrape is empty exactly when no feature of any chip is classifiable;
      in particular a snapshot with no chips yields no samples. */
  lemma CollectEmptyIff<V>(chips: Snapshot<V>)
    ensures Collect(chips) == [] <==>
              forall c, x :: c in chips && x in c.features ==> Classify(x.name) == None
  {
    if Collect(chips) != [] {
      CollectSound(chips, Collect(chips)[0]);
    }
    if exists c, x :: c in chips && x in c.features && Classify(x.name) != None {
      var c, x :| c in chips && x in c.features && Classify(x.name) != None;
      CollectComplete(chips, c, x, Classify(x.name).value);
    }
  }
}
