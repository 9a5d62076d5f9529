/** The loader as the source writes it: `VisitEntities` holds the marker allocator, the
    entity allocator, the `markers` storage and the tuple of component storages, and its
    methods update them in place. Each method is proved to compute what the matching
    function says: `GetOrCreate` and `Ids` those of module `Identity`, the others those of
    module `Load`. */
module Visit {
  import opened Wrappers
  import opened Identity
  import opened Load
  import StreamProperties
  import LoadProperties

  class VisitEntities<C> {
    /** The marker allocator's table from markers to entities. */
    var allocator: map<Marker, Entity>
    /** The next entity the entity allocator creates. */
    var next: Entity
    /** The `markers` storage: the marker each entity carries. */
    var markers: map<Entity, Marker>
    /** The component storages, one per tuple slot. */
    var storages: seq<map<Entity, C>>

    /** The borrowed state as a value. */
    function Snapshot(): State<C>
      reads this
    {
      State(allocator, next, markers, storages)
    }

    constructor (s: State<C>)
      ensures Snapshot() == s
    {
      allocator, next, markers, storages := s.allocator, s.next, s.markers, s.storages;
    }

    /** `allocator.get_or_create(marker, entities, markers)`. */
    method GetOrCreate(m: Marker) returns (e: Entity)
      modifies this
      ensures Step(Snapshot(), e) == Identity.GetOrCreate(old(Snapshot()), m)
    {
      if m in allocator {
        e := allocator[m];
      } else {
        e := next;
        next := next + 1;
        allocator := allocator[m := e];
        markers := markers[e := m];
      }
    }

    /** The `ids` closure of `DeserializeEntity::deserialize`. */
    method Ids(m: Marker) returns (id: Option<Entity>)
      modifies this
      ensures Step(Snapshot(), id) == Identity.Ids(old(Snapshot()), m)
    {
      var e := GetOrCreate(m);
      id := Some(e);
    }

    /** `FromDeserialize::from(d, &mut ids)`: the conversion calls `ids` once per marker it
        references, in order, then builds the component. */
    method From<D, E>(conv: Converter<D, C, E>, d: D) returns (r: Result<C, E>)
      modifies this
      ensures Step(Snapshot(), r) == Convert(old(Snapshot()), conv, d)
    {
      var ms := conv.refs(d);
      var ids: seq<Option<Entity>> := [];
      var i := 0;
      while i < |ms|
        invariant 0 <= i <= |ms|
        invariant Step(Snapshot(), ids) == Resolve(old(Snapshot()), ms[..i])
      {
        var id := Ids(ms[i]);
        assert ms[..i + 1][..i] == ms[..i];
        ids := ids + [id];
        i := i + 1;
      }
      assert ms[..|ms|] == ms;
      r := conv.build(d, ids);
    }

    /** `deserialize_entity`: slot by slot, a present payload is converted and inserted, an
        absent one removes the component, and a conversion error returns at once. */
    method DeserializeEntity<D, E>(e: Entity, comps: seq<Option<D>>, convs: seq<Converter<D, C, E>>)
      returns (r: Outcome<E>)
      requires Shaped(Snapshot(), comps, convs)
      modifies this
      ensures Step(Snapshot(), r) == LoadEntity(old(Snapshot()), e, comps, convs)
    {
      var k := 0;
      while k < |comps|
        invariant 0 <= k <= |comps| && |storages| == |comps|
        invariant Step(Snapshot(), Pass) == LoadSlots(old(Snapshot()), e, comps, convs, k)
      {
        match comps[k] {
          case None =>
            var updated: map<Entity, C> := storages[k] - {e};
            storages := storages[k := updated];
          case Some(d) =>
            var c := From(convs[k], d);
            match c {
              case Ok(v) =>
                var updated: map<Entity, C> := storages[k][e := v];
                storages := storages[k := updated];
              case Err(err) =>
                r := Fail(err);
                LoadProperties.FailureSticks(old(Snapshot()), e, comps, convs, k + 1, |comps|);
                return;
            }
        }
        k := k + 1;
      }
      r := Pass;
    }

    /** `DeserializeEntity::deserialize`: decode one record, resolve its marker to an entity,
        load its components, and wrap a conversion error with `de::Error::custom`. */
    method DeserializeRecord<D, E>(item: Item<D>, convs: seq<Converter<D, C, E>>)
      returns (r: Outcome<LoadError<E>>)
      requires |convs| == |storages|
      modifies this
      ensures Step(Snapshot(), r) == LoadRecord(old(Snapshot()), item, convs)
    {
      match item {
        case Corrupt =>
          r := Fail(Malformed);
        case Entry(rec) =>
          if |rec.components| != |convs| {
            r := Fail(Malformed);
            return;
          }
          var e := GetOrCreate(rec.marker);
          var out := DeserializeEntity(e, rec.components, convs);
          r := match out
            case Pass => Pass
            case Fail(err) => Fail(Custom(err));
      }
    }

    /** `VisitEntities::visit_seq`: take records until the input is exhausted, then return
        `Ok`; the first error is returned at once. */
    method VisitSeq<D, E>(items: seq<Item<D>>, convs: seq<Converter<D, C, E>>)
      returns (r: Outcome<LoadError<E>>)
      requires |convs| == |storages|
      modifies this
      ensures Step(Snapshot(), r) == LoadStream(old(Snapshot()), items, convs)
    {
      StreamProperties.RestOfRun(old(Snapshot()), items, RecordStep(convs), 0);
      var i := 0;
      while i < |items|
        invariant 0 <= i <= |items| && |storages| == |convs|
        invariant RunFrom(Snapshot(), items, RecordStep(convs), i) == LoadStream(old(Snapshot()), items, convs)
      {
        var out := DeserializeRecord(items[i], convs);
        if out.Fail? {
          r := out;
          return;
        }
        i := i + 1;
      }
      r := Pass;
    }
  }
}
