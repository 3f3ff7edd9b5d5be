/**
 The snapshot the exporter reads from the lm-sensors library on every scrape.

 The native library (initialisation, chip enumeration, feature enumeration,
 label and value getters) is replaced by plain immutable values: a snapshot is
 the sequence of detected chips, in the order the library enumerates them.
 The reading type `V` is left abstract, because the exporter only passes
 readings through and never computes with them.
 */
module Sensors {

  /** One named reading of a chip: `name` drives classification (`fan1`,
      `temp2`, `in0`, ...), `labelText` (the library's label) is the human-readable sub-identifier and
      `value` the current reading. */
  datatype Feature<V> = Feature(name: string, labelText: string, value: V)

  /** A detected monitoring chip: its printable name, the name of the adapter
      it sits on, and its features in enumeration order. */
  datatype Chip<V> = Chip(name: string, adapterName: string, features: seq<Feature<V>>)

  /** A full read of the sensor subsystem. */
  type Snapshot<V> = seq<Chip<V>>
}
