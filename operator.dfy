/** The enrichment operator itself: one instance holding the latest
    country-to-region snapshot in a field, with one handler per input channel. */
module Operator {
  import opened Json
  import opened Enrichment
  import opened Stream

  class Enricher {
    /** The snapshot last received on the side input. */
    var allMap: Snapshot

    /** A new instance holds the empty map, so lookups miss until the first
        snapshot arrives. */
    constructor ()
      ensures allMap == map[]
    {
      allMap := map[];
    }

    /** Side input: the received map replaces the held one wholesale. */
    method OnSnapshot(value: Snapshot)
      modifies this
      ensures allMap == value
    {
      allMap := value;
    }

    /** Main input: looks the area up once, then emits every item of the
        event, in order, with `area` and `dt` put into it. The held map is
        read, never written (the method modifies nothing). */
    method OnEvent(e: Event) returns (out: seq<Item>)
      ensures |out| == |e.data|
      ensures forall i :: 0 <= i < |out| ==>
        out[i] == Stamp(e.data[i], Lookup(allMap, e.countryCode), e.dt)
      ensures out == FlatMap(allMap, e)
    {
      var area: Option<string> := if e.countryCode in allMap then Some(allMap[e.countryCode]) else None;
      out := [];
      var i := 0;
      while i < |e.data|
        invariant 0 <= i <= |e.data|
        invariant out == Enrich(e.data[..i], area, e.dt)
      {
        var item := e.data[i];
        item := item[AreaKey := FromOption(area)];
        item := item[DtKey := JString(e.dt)];
        assert e.data[..i + 1] == e.data[..i] + [e.data[i]];
        EnrichConcat(e.data[..i], [e.data[i]], area, e.dt);
        out := out + [item];
        i := i + 1;
      }
      assert e.data[..i] == e.data;
      forall j | 0 <= j < |out|
        ensures out[j] == Stamp(e.data[j], area, e.dt)
      {
        EnrichAt(e.data, area, e.dt, j);
      }
    }

    /** Routes one input to the handler of its channel; the effect is one
        step of the reference model. */
    method Dispatch(x: Input) returns (out: seq<Item>)
      modifies this
      ensures allMap == Step(old(allMap), x).0
      ensures out == Step(old(allMap), x).1
    {
      match x
      case Side(m) =>
        OnSnapshot(m);
        out := [];
      case Main(e) =>
        out := OnEvent(e);
    }
  }

  /** The worked example of a two-item event for country US, first with the
      empty map a new instance holds, then after the snapshot {US: NA}. */
  method Example()
  {
    var op := new Enricher();
    var s1: Item := map["type" := JString("s1"), "score" := JNumber("0.3")];
    var s2: Item := map["type" := JString("s2"), "score" := JNumber("0.5")];
    var e := Event("2019-01-01 11:11:11", "US", [s1, s2]);

    var cold := op.OnEvent(e);
    assert cold == [s1[AreaKey := JNull][DtKey := JString(e.dt)],
                    s2[AreaKey := JNull][DtKey := JString(e.dt)]];

    op.OnSnapshot(map["US" := "NA"]);
    var warm := op.OnEvent(e);
    assert warm == [s1[AreaKey := JString("NA")][DtKey := JString(e.dt)],
                    s2[AreaKey := JString("NA")][DtKey := JString(e.dt)]];
  }
}
