/** The load protocol as functions of the state: what `deserialize_entity`, the per-record
    `DeserializeEntity::deserialize` and the record loop of `visit_seq` compute. Each is a
    left-to-right fold, in the order the source's loops run, so the methods of
    `VisitEntities` can be proved equal to them step by step. */
module Load {
  import opened Wrappers
  import opened Identity

  /** One decoded record: the entity's marker and one optional payload per storage slot. */
  datatype Record<D> = Record(marker: Marker, components: seq<Option<D>>)

  /** What the decoder yields for one element of the sequence: a record, or a failure to
      decode one. */
  datatype Item<D> = Entry(record: Record<D>) | Corrupt

  /** The error `visit_seq` reports: the decoder's own, or a conversion error wrapped by
      `de::Error::custom`. */
  datatype LoadError<E> = Malformed | Custom(cause: E)

  /** `FromDeserialize::from` of one component type: the conversion asks `ids` about the
      markers `refs(d)`, in that order, and builds the component from the answers. */
  datatype Converter<!D, C, E> = Converter(
    refs: D -> seq<Marker>,
    build: (D, seq<Option<Entity>>) -> Result<C, E>)

  /** The blanket `FromDeserialize` for a component that is its own payload: it asks
      nothing and returns the payload. */
  function Plain<C, E>(): Converter<C, C, E> {
    Converter(d => [], (d, ids) => Ok(d))
  }

  /** `WriteStorage::insert` on the storage of slot `k`: replaces any earlier value. */
  function Insert<C>(s: State<C>, k: nat, e: Entity, v: C): (r: State<C>)
    requires k < |s.storages|
    ensures |r.storages| == |s.storages| && e in r.storages[k] && r.storages[k][e] == v
    ensures r.storages[k] - {e} == s.storages[k] - {e}
    ensures forall j :: 0 <= j < |s.storages| && j != k ==> r.storages[j] == s.storages[j]
    ensures r.allocator == s.allocator && r.next == s.next && r.markers == s.markers
  {
    var updated: map<Entity, C> := s.storages[k][e := v];
    s.(storages := s.storages[k := updated])
  }

  /** `WriteStorage::remove` on the storage of slot `k`. */
  function Remove<C>(s: State<C>, k: nat, e: Entity): (r: State<C>)
    requires k < |s.storages|
    ensures |r.storages| == |s.storages| && e !in r.storages[k]
    ensures r.storages[k] - {e} == s.storages[k] - {e}
    ensures forall j :: 0 <= j < |s.storages| && j != k ==> r.storages[j] == s.storages[j]
    ensures r.allocator == s.allocator && r.next == s.next && r.markers == s.markers
  {
    var updated: map<Entity, C> := s.storages[k] - {e};
    s.(storages := s.storages[k := updated])
  }

  /** The answers of `ids` to the markers `ms`, asked in order. */
  function Resolve<C>(s: State<C>, ms: seq<Marker>): (r: Step<C, seq<Option<Entity>>>)
    ensures |r.out| == |ms|
    ensures forall i :: 0 <= i < |ms| ==>
      ms[i] in r.state.allocator && r.out[i] == Some(r.state.allocator[ms[i]])
    ensures r.state.storages == s.storages && Extends(s, r.state)
    decreases |ms|
  {
    if ms == [] then Step(s, [])
    else
      var prev := Resolve(s, ms[..|ms| - 1]);
      var id := Ids(prev.state, ms[|ms| - 1]);
      Step(id.state, prev.out + [id.out])
  }

  /** `FromDeserialize::from(d, ids)`: conversion may create entities for the markers it
      references, but touches no storage. */
  function Convert<D, C, E>(s: State<C>, conv: Converter<D, C, E>, d: D): (r: Step<C, Result<C, E>>)
    ensures r.state.storages == s.storages && Extends(s, r.state)
  {
    var ids := Resolve(s, conv.refs(d));
    Step(ids.state, conv.build(d, ids.out))
  }

  /** One slot of `deserialize_entity`: a present payload is converted and inserted, an
      absent one removes the component; a conversion error is returned as is. */
  function SlotStep<D, C, E>(s: State<C>, e: Entity, k: nat, slot: Option<D>, conv: Converter<D, C, E>)
    : (r: Step<C, Outcome<E>>)
    requires k < |s.storages|
    ensures |r.state.storages| == |s.storages|
    ensures r.out.Fail? ==> slot.Some? && r.state.storages == s.storages
    ensures slot.None? ==> r.out == Pass && e !in r.state.storages[k]
  {
    match slot
    case None => Step(Remove(s, k, e), Pass)
    case Some(d) =>
      var c := Convert(s, conv, d);
      match c.out
      case Ok(v) => Step(Insert(c.state, k, e, v), Pass)
      case Err(err) => Step(c.state, Fail(err))
  }

  /** The tuple shape: one payload slot and one converter per storage. */
  predicate Shaped<D, C, E>(s: State<C>, comps: seq<Option<D>>, convs: seq<Converter<D, C, E>>) {
    |comps| == |convs| == |s.storages|
  }

  /** `deserialize_entity` run over slots `0 .. k-1`, stopping at the first error. */
  function LoadSlots<D, C, E>(s: State<C>, e: Entity, comps: seq<Option<D>>,
                              convs: seq<Converter<D, C, E>>, k: nat): (r: Step<C, Outcome<E>>)
    requires Shaped(s, comps, convs) && k <= |comps|
    ensures |r.state.storages| == |s.storages|
    decreases k
  {
    if k == 0 then Step(s, Pass)
    else
      var prev := LoadSlots(s, e, comps, convs, k - 1);
      if prev.out.Fail? then prev
      else SlotStep(prev.state, e, k - 1, comps[k - 1], convs[k - 1])
  }

  /** `deserialize_entity(e, comps, ids)` over all slots. */
  function LoadEntity<D, C, E>(s: State<C>, e: Entity, comps: seq<Option<D>>,
                               convs: seq<Converter<D, C, E>>): (r: Step<C, Outcome<E>>)
    requires Shaped(s, comps, convs)
    ensures |r.state.storages| == |s.storages|
  {
    LoadSlots(s, e, comps, convs, |comps|)
  }

  /** `DeserializeEntity::deserialize`: decode one record, resolve its marker, load its slots,
      and wrap a conversion error. A record whose tuple does not have one slot per storage
      does not decode. (The converters and the storages come from one tuple type, so the
      shape test is in effect a test of the record's slot count.) */
  function LoadRecord<D, C, E>(s: State<C>, item: Item<D>, convs: seq<Converter<D, C, E>>)
    : (r: Step<C, Outcome<LoadError<E>>>)
    ensures |r.state.storages| == |s.storages|
  {
    match item
    case Corrupt => Step(s, Fail(Malformed))
    case Entry(rec) =>
      if !Shaped(s, rec.components, convs) then Step(s, Fail(Malformed))
      else
        var g := GetOrCreate(s, rec.marker);
        var loaded := LoadEntity(g.state, g.out, rec.components, convs);
        Step(loaded.state, match loaded.out case Pass => Pass case Fail(err) => Fail(Custom(err)))
  }

  /** The seed `visit_seq` hands every element of the sequence: `DeserializeEntity` over the
      storage tuple whose converters are `convs`. */
  function RecordStep<D, C, E>(convs: seq<Converter<D, C, E>>)
    : (State<C>, Item<D>) -> Step<C, Outcome<LoadError<E>>>
  {
    (s, item) => LoadRecord(s, item, convs)
  }

  /** The record loop of `visit_seq` with the per-record seed `step`, run over records
      `0 .. k-1`: in sequence order, stopping at the first error with every earlier effect
      kept. */
  function RunRecords<D, C, X>(s: State<C>, items: seq<Item<D>>,
                               step: (State<C>, Item<D>) -> Step<C, Outcome<X>>, k: nat)
    : Step<C, Outcome<X>>
    requires k <= |items|
    decreases k
  {
    if k == 0 then Step(s, Pass)
    else
      var prev := RunRecords(s, items, step, k - 1);
      if prev.out.Fail? then prev
      else step(prev.state, items[k - 1])
  }

  /** The rest of the record loop: records `i ..` run from state `s`. */
  function RunFrom<D, C, X>(s: State<C>, items: seq<Item<D>>,
                            step: (State<C>, Item<D>) -> Step<C, Outcome<X>>, i: nat)
    : Step<C, Outcome<X>>
    requires i <= |items|
    decreases |items| - i
  {
    if i == |items| then Step(s, Pass)
    else
      var r := step(s, items[i]);
      if r.out.Fail? then r
      else RunFrom(r.state, items, step, i + 1)
  }

  /** `visit_seq` over the whole input. */
  function LoadStream<D, C, E>(s: State<C>, items: seq<Item<D>>, convs: seq<Converter<D, C, E>>)
    : Step<C, Outcome<LoadError<E>>>
  {
    RunRecords(s, items, RecordStep(convs), |items|)
  }
}
