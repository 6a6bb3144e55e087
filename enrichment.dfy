/** What the enrichment operator computes for one main-input event, as pure
    functions: the region lookup, the two fields stamped onto every item, and
    the flattening of the event's `data` array into one record per item. */
module Enrichment {
  import opened Json

  /** The side input: country code to region, always a complete mapping. */
  type Snapshot = map<string, string>

  /** A main-input message once parsed: its `dt`, its `countryCode` and its
      `data` array of JSON objects, in array order. */
  datatype Event = Event(dt: string, countryCode: string, data: seq<Item>)

  /** The two field names the operator writes into every item. */
  const AreaKey: string := "area"
  const DtKey: string := "dt"

  /** The region held for a country code; a code the snapshot does not map
      gives None (a null area), never an error. */
  function Lookup(snapshot: Snapshot, code: string): (r: Option<string>)
    ensures r.Some? <==> code in snapshot
    ensures r.Some? ==> r.value == snapshot[code]
  {
    if code in snapshot then Some(snapshot[code]) else None
  }

  /** One item with `area` and then `dt` put into it. */
  function Stamp(item: Item, area: Option<string>, dt: string): (r: Item)
    ensures r.Keys == item.Keys + {AreaKey, DtKey}
    ensures r[AreaKey] == FromOption(area)
    ensures r[DtKey] == JString(dt)
    ensures forall k :: k in item && k != AreaKey && k != DtKey ==> r[k] == item[k]
  {
    item[AreaKey := FromOption(area)][DtKey := JString(dt)]
  }

  /** Every item stamped with the same area and dt, in the items' order. */
  function Enrich(items: seq<Item>, area: Option<string>, dt: string): (r: seq<Item>)
    ensures |r| == |items|
  {
    if items == [] then [] else [Stamp(items[0], area, dt)] + Enrich(items[1..], area, dt)
  }

  /** The records one event produces against the snapshot held when it arrives:
      the area is looked up once, then every item is stamped with it. */
  function FlatMap(snapshot: Snapshot, e: Event): seq<Item>
  {
    Enrich(e.data, Lookup(snapshot, e.countryCode), e.dt)
  }

  /** Output i is input item i, stamped. */
  lemma {:induction false} EnrichAt(items: seq<Item>, area: Option<string>, dt: string, i: nat)
    requires i < |items|
    ensures Enrich(items, area, dt)[i] == Stamp(items[i], area, dt)
  {
    if i > 0 {
      EnrichAt(items[1..], area, dt, i - 1);
    }
  }

  /** Enriching a concatenation enriches each part: the split of an item
      array does not change what is emitted. */
  lemma {:induction false} EnrichConcat(a: seq<Item>, b: seq<Item>, area: Option<string>, dt: string)
    ensures Enrich(a + b, area, dt) == Enrich(a, area, dt) + Enrich(b, area, dt)
  {
    if a != [] {
      assert (a + b)[0] == a[0] && (a + b)[1..] == a[1..] + b;
      EnrichConcat(a[1..], b, area, dt);
    } else {
      assert a + b == b;
    }
  }

  /** The full characterisation of one event's output: exactly one record per
      item, in order; each record keeps every other field of its item, and its
      `area` and `dt` fields (overwritten if present) carry the lookup result
      and the event's dt. */
  lemma FlatMapRecords(snapshot: Snapshot, e: Event)
    ensures |FlatMap(snapshot, e)| == |e.data|
    ensures forall i :: 0 <= i < |e.data| ==>
      var r := FlatMap(snapshot, e)[i];
      && r.Keys == e.data[i].Keys + {AreaKey, DtKey}
      && r[AreaKey] == FromOption(Lookup(snapshot, e.countryCode))
      && r[DtKey] == JString(e.dt)
      && (forall k :: k in e.data[i] && k != AreaKey && k != DtKey ==> r[k] == e.data[i][k])
  {
    forall i | 0 <= i < |e.data|
      ensures FlatMap(snapshot, e)[i] == Stamp(e.data[i], Lookup(snapshot, e.countryCode), e.dt)
    {
      EnrichAt(e.data, Lookup(snapshot, e.countryCode), e.dt, i);
    }
  }

  /** A mapped country code puts its region into every record; an unmapped one
      puts null into every record. */
  lemma FlatMapArea(snapshot: Snapshot, e: Event)
    ensures forall i :: 0 <= i < |e.data| ==>
      AreaKey in FlatMap(snapshot, e)[i] &&
      FlatMap(snapshot, e)[i][AreaKey] ==
        if e.countryCode in snapshot then JString(snapshot[e.countryCode]) else JNull
  {
    FlatMapRecords(snapshot, e);
  }

  /** All records of one event carry the same area and the same dt. */
  lemma FlatMapUniform(snapshot: Snapshot, e: Event)
    ensures forall i :: 0 <= i < |e.data| ==>
      AreaKey in FlatMap(snapshot, e)[i] && DtKey in FlatMap(snapshot, e)[i]
    ensures forall i, j :: 0 <= i < |e.data| && 0 <= j < |e.data| ==>
      FlatMap(snapshot, e)[i][AreaKey] == FlatMap(snapshot, e)[j][AreaKey] &&
      FlatMap(snapshot, e)[i][DtKey] == FlatMap(snapshot, e)[j][DtKey]
  {
    FlatMapRecords(snapshot, e);
  }

  /** Before any snapshot has arrived the held map is empty, and every record
      gets a null area while keeping its item's other fields. */
  lemma FlatMapColdStart(e: Event)
    ensures |FlatMap(map[], e)| == |e.data|
    ensures forall i :: 0 <= i < |e.data| ==>
      AreaKey in FlatMap(map[], e)[i] && FlatMap(map[], e)[i][AreaKey] == JNull
  {
    FlatMapRecords(map[], e);
  }
}
