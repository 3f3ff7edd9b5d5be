# lm-sensors Prometheus exporter: the collector, in Dafny

This project models the collector of the lm-sensors exporter. On every scrape
the collector reads the detected hardware-monitoring chips and their features.
Each feature whose name starts with `fan`, `temp`, `in` or `power` is put in
the matching metric family (fan speed, temperature, voltage or power); any
other feature is dropped. It then emits one constant gauge per classified
feature, labelled with the feature's label, the chip's name and the
adapter's name. The collector also advertises the four family descriptors,
whatever the hardware holds.

Modules:

- `Sensors` (sensors.dfy): the snapshot the collector reads. It is a sequence
  of `Chip`s, each with a name, an adapter name and a sequence of `Feature`s
  (name, label, reading). The reading type is a type parameter `V`, because it
  is only passed through.
- `Prom` (prom.dfy): the parts of the metrics client library the collector
  uses. These are descriptors, constant metrics, the label-cardinality check of
  `NewConstMetric`, and the panicking `MustNewConstMetric`. The panic is
  modelled as a precondition, so every call site in the model proves that the
  panic cannot happen. `LabelValue` reads a sample's value by label name.
- `Exporter` (exporter.dfy): the four descriptors and `Describe`, the
  case-sensitive `HasPrefix`, the first-match `Classify`, and the functional
  scrape `Collect`: one scrape as a pure function, a flatten over chips of a
  filter-map over features.
- `Collector` (collector.dfy): the scrape loop as the code runs it. It has the
  nested chip/feature loops and the `fan`/`temp`/`in`/`power` if-chain, and
  each channel send becomes an append to the result. It is proved equal to
  `Exporter.Collect`.
- `ClassifyProperties` and `CollectProperties`: the properties of
  classification and of a scrape. The scrape properties are stated against an
  independent reference semantics: flatten all (chip, feature) readings, keep
  the classified ones, then render each one.
- `Seqs`: a generic `FlatMap` with its append and membership lemmas.
- `Scenarios`: concrete scrapes with real-valued readings.

Three points of the collector's behaviour that the model keeps:

- Prefix matching is case-sensitive (`strings.HasPrefix`), so `Fan1` is dropped.
- The code has no per-feature error handling, and the model adds none.
- Samples are sent in chip order, then feature order, and the model proves
  this order.

## Model

| member | source | states |
|---|---|---|
| `Exporter.DescOf` | sensor-exporter/main.go:13-37 | Each family's descriptor carries that family's metric name (`sensor_lm_fan_speed_rpm`, `sensor_lm_voltage_volts`, `sensor_lm_power_watts`, `sensor_lm_temperature_celsius`). Every family's label schema is exactly three names: the family's type label (`fantype`, `intype`, `powertype`, `temptype`), then `chip`, then `adaptor`. The three names are pairwise distinct. |
| `Exporter.Describe` | sensor-exporter/main.go:77-82 | Describe advertises exactly four descriptors, in the order fan speed, power, temperature, voltage. Every family appears, nothing else appears, and the metric names are pairwise distinct. It takes no snapshot. |
| `Exporter.HasPrefix` | sensor-exporter/main.go:90 | The Go prefix test holds exactly when the prefix is a (case-sensitive) sequence prefix of the name. |
| `Exporter.Classify` | sensor-exporter/main.go:90-110 | A returned family's prefix starts the name. No family is returned exactly when the name starts with none of the four prefixes. |
| `ClassifyProperties.ClassifyExact` | sensor-exporter/main.go:90-110 | For every name and family, the name is classified into that family if and only if it starts with the family's prefix. |
| `ClassifyProperties.AtMostOneFamily` | sensor-exporter/main.go:90-110 | No name starts with the prefixes of two different families. |
| `ClassifyProperties.PrefixesIndependent` | sensor-exporter/main.go:90-105 | None of the four prefixes is a prefix of another one. |
| `ClassifyProperties.ClassifyIsTableLookup` | sensor-exporter/main.go:90-110 | The if-chain gives the same result as a first-match lookup in the ordered table (fan, temp, in, power). |
| `ClassifyProperties.TableOrderIrrelevant` | sensor-exporter/main.go:90-110 | Any table with the same (prefix, family) entries, in any order, classifies every name as the if-chain does. Reordering the tests changes nothing. |
| `ClassifyProperties.ClassifyCaseSensitive` | sensor-exporter/main.go:90-99 | `fan1` and `temp2` are classified, while `Fan1` and `TEMP2` are not. |
| `ClassifyProperties.ClassifyByPrefixOnly` | sensor-exporter/main.go:100-109 | Any continuation of a prefix is accepted (`in0`, `intrusion0`, `power1`). |
| `ClassifyProperties.ClassifyUnknown` | sensor-exporter/main.go:89-111 | `unknown3` and the empty name get no family. |
| `ClassifyProperties.UnclassifiedByFirstChar` | sensor-exporter/main.go:89-111 | A name whose first character starts none of the prefixes gets no family. |
| `Prom.MustNewConstMetric` | sensor-exporter/main.go:91-94 | A sample is built only when the number of label values equals the schema's length. The result is what the error-returning constructor returns on success. |
| `Exporter.FeatureMetric` | sensor-exporter/main.go:91-109 | A classified feature becomes a gauge of its family's descriptor. Its label values are (feature label, chip name, adapter name) and its value is the reading, unchanged. |
| `CollectProperties.SampleLabels` | sensor-exporter/main.go:87-109 | Read by label name, a sample carries the feature label under its family's type label, the chip name under `chip` and the adapter name under `adaptor`. |
| `CollectProperties.FeatureSamplesMembers` | sensor-exporter/main.go:90-110 | A feature yields a sample exactly when its name selects a family, and that sample is the feature's rendering under that family. |
| `CollectProperties.FeatureMetricsShape` | sensor-exporter/main.go:86-111 | Every sample of a chip is an advertised gauge with three label values, and the last two are the chip's name and adapter name. |
| `CollectProperties.CollectEmittable` | sensor-exporter/main.go:91-109 | Every sample of a scrape is a gauge of an advertised family with one label value per schema label. The cardinality check accepts each sample unchanged, so it never panics. |
| `CollectProperties.CollectAppend` | sensor-exporter/main.go:86-112 | A scrape of two chip lists is the scrape of the first followed by the scrape of the second, so chip order is kept. |
| `CollectProperties.ChipBlock` | sensor-exporter/main.go:86-112 | The samples of chip `i` form one contiguous block, after the earlier chips' samples and before the later chips' samples. |
| `CollectProperties.FeatureMetricsIsRender` | sensor-exporter/main.go:89-111 | One chip's samples are its classified readings, rendered in feature order. |
| `CollectProperties.CollectIsRender` | sensor-exporter/main.go:85-113 | The functional scrape `Exporter.Collect` equals the reference semantics, position by position: flatten all readings in chip then feature order, keep the classified ones, render each. |
| `CollectProperties.ReadingsMembers` | sensor-exporter/main.go:86-89 | A reading belongs to a snapshot's readings exactly when its chip is in the snapshot and its feature belongs to that chip. |
| `CollectProperties.ClassifiedMembers` | sensor-exporter/main.go:89-111 | A reading survives classification, paired with family `f`, exactly when it was read and its name selects `f`. |
| `CollectProperties.CollectSound` | sensor-exporter/main.go:85-113 | Every emitted sample renders some classified feature of some detected chip. |
| `CollectProperties.CollectComplete` | sensor-exporter/main.go:85-113 | Every classified feature of every detected chip is emitted. |
| `CollectProperties.CollectMembers` | sensor-exporter/main.go:85-113 | A sample is emitted if and only if it renders a feature of a detected chip whose name selects the sample's family. |
| `CollectProperties.EveryClassifiedFeatureEmitted` | sensor-exporter/main.go:90-109 | A feature whose name starts with a family's prefix yields a gauge of that family. The gauge's value is the reading and its labels are (feature label, chip, adapter). |
| `CollectProperties.FeatureMetricsLength` | sensor-exporter/main.go:89-111 | A chip emits as many samples as it has classifiable features. |
| `CollectProperties.CollectLength` | sensor-exporter/main.go:86-112 | A scrape has as many samples as there are classifiable features, summed over all chips. |
| `CollectProperties.StripUnclassifiableKeepsCollect` | sensor-exporter/main.go:89-111 | Removing every unclassifiable feature from the snapshot leaves the scrape unchanged, so such features contribute nothing. |
| `CollectProperties.CollectEmptyIff` | sensor-exporter/main.go:86-112 | A scrape is empty exactly when no feature of any chip is classifiable. In particular, a snapshot with no chips gives an empty scrape. |
| `Collector.SendFeature` | sensor-exporter/main.go:90-110 | The if-chain sends at most one sample per feature, and sends exactly the feature's classified sample. |
| `Collector.SendChip` | sensor-exporter/main.go:89-111 | The inner loop sends the chip's samples in feature order. |
| `Collector.Collect` | sensor-exporter/main.go:85-113 | The nested loops send exactly the samples of the functional scrape `Exporter.Collect`. |
| `Scenarios.TemperatureFeature` | sensor-exporter/main.go:95-99 | A `temp1`/`CPU`/45.0 feature on `chip0` of `ISA adapter` becomes one `sensor_lm_temperature_celsius` gauge with labels `temptype="CPU"`, `chip="chip0"`, `adaptor="ISA adapter"`. |
| `Scenarios.UnknownFeature` | sensor-exporter/main.go:89-111 | A feature named `unknown3` yields no sample. |
| `Scenarios.NoChips` | sensor-exporter/main.go:77-86 | With no chips the scrape is empty, while Describe still advertises four descriptors. |
| `Scenarios.FanAndVoltageOnOneChip` | sensor-exporter/main.go:86-104 | `fan1` and `in0` features on one chip give exactly two samples, fan speed then voltage, both with that chip's chip and adaptor labels. |

## Left out

- `main`: flag parsing (`-web.listen-address`, `-web.telemetry-path`), route registration, the HTML landing page, `ListenAndServe` and the profiling side-import. These are process and HTTP plumbing.
- Sensor library initialisation (`Init`): it is a native call with no logic of the collector. A failed initialisation is not modelled.
- The native sensor library calls (`GetDetectedChips`, `String`, `AdapterName`, `GetFeatures`, `GetLabel`, `GetValue`). The model replaces them with the immutable `Snapshot` input, so a read that fails mid-enumeration is not modelled either.
- Registration with the registry, the exposition handler and the text serialisation: these belong to the client library, and the model keeps only the collector's two operations.
- Channel semantics and concurrent scrapes: each send is a sequence append, and no locking around the sensor source is modelled.
- Floating-point readings: the reading is an opaque type parameter, because the collector never computes with it.
- Prom.NewConstMetric: it does not model the library's other checks. These are the UTF-8 validity of label values and the descriptor errors that `NewDesc` can record. The label-pair sorting the library does internally is also left out, and samples keep their label values in schema order.
- That each scrape re-reads the hardware: a pure function of the snapshot recomputes its result by construction, so it needs no separate statement.
