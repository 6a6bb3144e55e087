# DataClean enrichment operator

DataClean is a Flink job that reads nested JSON events from Kafka, enriches them
with a country-code to region mapping that a Redis source publishes periodically,
flattens each event's `data` array into one record per element, and writes the
records back to Kafka. The only logic of its own is the two-input operator that
joins the two streams (a `CoFlatMapFunction`). This project models that operator
and proves what it emits:

- `json.dfy` (module `Json`): already-parsed JSON values and `Option`.
- `enrichment.dfy` (module `Enrichment`): the operator's work on one event as pure
  functions. `Lookup` is the map `get`. `Stamp` puts `area` and `dt` into one item.
  `Enrich` and `FlatMap` give the records one event produces. Lemmas characterise
  every output record.
- `stream.dfy` (module `Stream`): a reference model of one operator instance over
  any interleaving of the two channels. An input is tagged `Main(event)` or
  `Side(snapshot)`. `Step` handles one input and `Run` handles a sequence. The
  lemmas prove wholesale replacement, cold start, output counts, and that each
  event is enriched against the last snapshot received before it.
- `operator.dfy` (module `Operator`): the operator as a class `Enricher`. It has the
  field `allMap`, `OnSnapshot` for the side input, `OnEvent` for the main input
  (a loop that appends one record per item), and `Dispatch`, which routes an input
  to its handler. `OnEvent` is proved equal to `FlatMap` and `Dispatch` to `Step`.
  `Example` replays the two-item `US` event, first with an empty map and then
  with `{US: NA}`.

A lookup miss yields `JNull` under `area`, because Java's `HashMap.get` returns
null and the JSON object keeps a null-valued key. An `area` or `dt` field that an
item already has is overwritten. A snapshot replaces the held map in one
assignment, so no lookup can see a mix of two snapshots.

Two things the file does are not modelled:
- The job uses Flink's own checkpointing, broadcast and exactly-once Kafka
  producer (`DataClean/src/main/java/henry/flink/DataClean.java:46-56`, `:75-76`,
  `:112-124`). None of them has logic in this file, so none is modelled.
- A malformed record is not skipped: a missing `data` array is a null
  dereference at `:96`. The model takes only well-formed, already-parsed events,
  which its types enforce (see "## Left out").

## Model

| member | source | states |
|---|---|---|
| Enrichment.Lookup | DataClean/src/main/java/henry/flink/DataClean.java:93 | the area is present exactly when the country code is mapped, and is then the mapped region; a miss is an absent value, not an error |
| Enrichment.Stamp | DataClean/src/main/java/henry/flink/DataClean.java:99-100 | a stamped item has the item's keys plus `area` and `dt`; `area` holds the lookup result (null on a miss); `dt` holds the event's dt; every other field is unchanged; an existing `area` or `dt` is overwritten |
| Enrichment.Enrich | DataClean/src/main/java/henry/flink/DataClean.java:96-102 | exactly one record per item, so an empty `data` array emits nothing |
| Enrichment.EnrichAt | DataClean/src/main/java/henry/flink/DataClean.java:96-101 | output i is input item i stamped, so item order is preserved |
| Enrichment.EnrichConcat | DataClean/src/main/java/henry/flink/DataClean.java:96-102 | enriching a concatenation of item arrays gives the concatenation of the parts' outputs, so each further item appends exactly its own record (the invariant of the loop in `OnEvent`) |
| Enrichment.FlatMapRecords | DataClean/src/main/java/henry/flink/DataClean.java:86-103 | one event gives exactly one record per item, in order; each record keeps its item's other fields and carries the looked-up area and the event's dt |
| Enrichment.FlatMapArea | DataClean/src/main/java/henry/flink/DataClean.java:93-99 | a mapped country code puts its region into every record; an unmapped one puts null |
| Enrichment.FlatMapUniform | DataClean/src/main/java/henry/flink/DataClean.java:90-100 | the area is looked up once per event, so all records of one event share one area and one dt |
| Enrichment.FlatMapColdStart | DataClean/src/main/java/henry/flink/DataClean.java:83-99 | against the empty initial map every record of an event has a null area, and the count is still one per item |
| Stream.Run | DataClean/src/main/java/henry/flink/DataClean.java:79-109 | over any interleaving of the two channels, the number of records emitted is the number of items in the events |
| Stream.RunSplit | DataClean/src/main/java/henry/flink/DataClean.java:79-109 | handling a + b is handling a, then b from the snapshot a left; the outputs concatenate |
| Stream.LastSnapshotCons | DataClean/src/main/java/henry/flink/DataClean.java:106-109 | the latest snapshot of x followed by xs is the latest of xs counted from the state that x leaves |
| Stream.RunHoldsLastSnapshot | DataClean/src/main/java/henry/flink/DataClean.java:106-109 | after any inputs the held map is exactly the last snapshot received (the initial one if none), so snapshots replace and never merge |
| Stream.ReplaceNotMerge | DataClean/src/main/java/henry/flink/DataClean.java:108 | whatever was held before, a side input leaves exactly the received map, with no older key surviving |
| Stream.EventEnrichedByLastSnapshot | DataClean/src/main/java/henry/flink/DataClean.java:86-109 | the records of the i-th input, an event, come right after those of all earlier inputs and are that event enriched against the last snapshot received before it |
| Stream.ColdStart | DataClean/src/main/java/henry/flink/DataClean.java:83-93 | while no snapshot has arrived the held map stays empty and every emitted record has a null area |
| Operator.Enricher.constructor | DataClean/src/main/java/henry/flink/DataClean.java:83 | a new instance holds the empty map |
| Operator.Enricher.OnSnapshot | DataClean/src/main/java/henry/flink/DataClean.java:106-109 | the held map becomes the received map exactly |
| Operator.Enricher.OnEvent | DataClean/src/main/java/henry/flink/DataClean.java:86-103 | emits one record per item in order, record i being item i stamped with the looked-up area and the event's dt, equal to `FlatMap`; the held map is not written |
| Operator.Enricher.Dispatch | DataClean/src/main/java/henry/flink/DataClean.java:79-110 | routing one input to its channel's handler has exactly the effect and output of one `Step` of the reference model |

## Left out

- JSON parsing and printing (`parseObject`, `getString`, `getJSONArray`, `toJSONString`, `:89-101`): this is a foreign library. The model takes a parsed `Event` and emits structured items. It says nothing about the printed text, such as whether a null `area` is printed or omitted.
- The in-place `put` on the parsed JSON objects (`:99-100`) is modelled as an update of an item value. Each call parses a fresh object tree that nothing else observes, so no aliasing is lost.
- The debug `System.out.println` (`:98`): pure output.
- Kafka consumer and producer setup, topics and the producer's transaction timeout (`:58-68`, `:112-124`): network clients and connector configuration.
- Checkpoint settings and the RocksDB/HDFS state backend (`:46-56`): framework configuration. The code has no checkpoint coordinator or sink logic of its own to model.
- `MyRedisSource` and `.broadcast()` (`:75-76`): `MyRedisSource` is not part of this model, and broadcast fan-out is framework concurrency. One operator instance is modelled.
- Parallelism and the interleaving of the two channels (`:44`, `:79`): each handler call is atomic. `Stream.Run` covers every order in which the inputs could arrive at one instance.
- Malformed input. `Event.dt` and `Event.countryCode` are strings and `Event.data` is a sequence of objects, so the model excludes each of these cases:
  - a missing `dt` or `countryCode` raises no error: `getString` returns null (`:90-91`) and `allMap.get(null)` returns null (`:93`). `put("dt", null)` (`:100`) then replaces any `dt` the item had, and every record is still emitted (`:101`);
  - a missing or non-array `data` throws at `:95-96`, before anything is emitted;
  - a non-object element throws at `:97-99`, after the records of the earlier items have already been emitted at `:101`.
