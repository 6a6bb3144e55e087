/** A reference model of one operator instance over a whole interleaving of
    its two input channels: each input is either a main-input event or a
    side-input snapshot, handled one at a time in arrival order. */
module Stream {
  import opened Json
  import opened Enrichment

  /** One message at the operator's boundary, tagged by the channel it came on. */
  datatype Input = Main(event: Event) | Side(snapshot: Snapshot)

  /** One input handled against the held snapshot: a snapshot replaces what is
      held and emits nothing; an event emits its records and keeps what is held. */
  function Step(held: Snapshot, x: Input): (Snapshot, seq<Item>)
  {
    match x
    case Side(m) => (m, [])
    case Main(e) => (held, FlatMap(held, e))
  }

  /** The number of items carried by the events among the inputs. */
  function ItemCount(xs: seq<Input>): nat
  {
    if xs == [] then 0
    else (if xs[0].Main? then |xs[0].event.data| else 0) + ItemCount(xs[1..])
  }

  /** The held snapshot and everything emitted, after the inputs in order. */
  function Run(held: Snapshot, xs: seq<Input>): (r: (Snapshot, seq<Item>))
    ensures |r.1| == ItemCount(xs)
    decreases |xs|
  {
    if xs == [] then (held, [])
    else
      var first := Step(held, xs[0]);
      var rest := Run(first.0, xs[1..]);
      (rest.0, first.1 + rest.1)
  }

  /** The most recent snapshot among the inputs, or `held` when none arrived. */
  function LastSnapshot(held: Snapshot, xs: seq<Input>): Snapshot
  {
    if xs == [] then held
    else if xs[|xs| - 1].Side? then xs[|xs| - 1].snapshot
    else LastSnapshot(held, xs[..|xs| - 1])
  }

  /** No snapshot is among the inputs. */
  predicate NoSnapshot(xs: seq<Input>)
  {
    forall i :: 0 <= i < |xs| ==> xs[i].Main?
  }

  /** Handling a + b is handling a, then b from the snapshot a left behind. */
  lemma {:induction false} RunSplit(held: Snapshot, a: seq<Input>, b: seq<Input>)
    ensures Run(held, a + b).0 == Run(Run(held, a).0, b).0
    ensures Run(held, a + b).1 == Run(held, a).1 + Run(Run(held, a).0, b).1
    decreases |a|
  {
    if a == [] {
      assert a + b == b;
    } else {
      assert (a + b)[0] == a[0] && (a + b)[1..] == a[1..] + b;
      RunSplit(Step(held, a[0]).0, a[1..], b);
    }
  }

  /** The last snapshot of x followed by xs is the last of xs, counted from
      the snapshot that handling x leaves held. */
  lemma {:induction false} LastSnapshotCons(held: Snapshot, x: Input, xs: seq<Input>)
    ensures LastSnapshot(held, [x] + xs) == LastSnapshot(Step(held, x).0, xs)
    decreases |xs|
  {
    if xs != [] {
      var ys := [x] + xs;
      assert ys[|ys| - 1] == xs[|xs| - 1];
      assert ys[..|ys| - 1] == [x] + xs[..|xs| - 1];
      LastSnapshotCons(held, x, xs[..|xs| - 1]);
    }
  }

  /** Snapshots replace, never merge: what is held after any sequence of
      inputs is exactly the last snapshot received, and no key of an earlier
      snapshot survives unless that last snapshot has it. */
  lemma {:induction false} RunHoldsLastSnapshot(held: Snapshot, xs: seq<Input>)
    ensures Run(held, xs).0 == LastSnapshot(held, xs)
    decreases |xs|
  {
    if xs != [] {
      RunHoldsLastSnapshot(Step(held, xs[0]).0, xs[1..]);
      LastSnapshotCons(held, xs[0], xs[1..]);
      assert [xs[0]] + xs[1..] == xs;
    }
  }

  /** Whatever was held before, a snapshot input leaves exactly that snapshot. */
  lemma ReplaceNotMerge(held: Snapshot, xs: seq<Input>, m: Snapshot)
    ensures Run(held, xs + [Side(m)]).0 == m
  {
    RunSplit(held, xs, [Side(m)]);
  }

  /** The records of the i-th input, an event, sit in the output right after
      those of all earlier inputs, and are that event enriched against the
      last snapshot received before it. */
  lemma EventEnrichedByLastSnapshot(held: Snapshot, xs: seq<Input>, i: nat)
    requires i < |xs| && xs[i].Main?
    ensures ItemCount(xs[..i]) + |xs[i].event.data| <= |Run(held, xs).1|
    ensures Run(held, xs).1[ItemCount(xs[..i]) .. ItemCount(xs[..i]) + |xs[i].event.data|]
         == FlatMap(LastSnapshot(held, xs[..i]), xs[i].event)
  {
    var a, b := xs[..i], xs[i..];
    assert xs == a + b;
    RunSplit(held, a, b);
    RunHoldsLastSnapshot(held, a);
    var h := Run(held, a).0;
    var e := xs[i].event;
    assert b[0] == Main(e);
    assert Run(h, b).1 == FlatMap(h, e) + Run(h, b[1..]).1;
    FlatMapRecords(h, e);
    var out := Run(held, xs).1;
    assert out == Run(held, a).1 + FlatMap(h, e) + Run(h, b[1..]).1;
  }

  /** Cold start: while no snapshot has arrived the held map stays empty and
      every record emitted has a null area, without any input failing. */
  lemma {:induction false} ColdStart(xs: seq<Input>)
    requires NoSnapshot(xs)
    ensures Run(map[], xs).0 == map[]
    ensures forall k :: 0 <= k < |Run(map[], xs).1| ==>
      AreaKey in Run(map[], xs).1[k] && Run(map[], xs).1[k][AreaKey] == JNull
    decreases |xs|
  {
    if xs != [] {
      ColdStart(xs[1..]);
      FlatMapColdStart(xs[0].event);
    }
  }
}
