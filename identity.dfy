/** The identity layer the loader borrows: the marker allocator's table from markers to
    entities, the entity allocator's counter, and the `markers` storage that records the
    marker carried by each entity. `MarkerAllocator::get_or_create` is defined outside the
    loader, in the marker module, and is not modelled; `GetOrCreate` below states the
    behaviour the loader relies on. */
module Identity {
  import opened Wrappers

  /** An externally stable identifier written into a saved record. */
  type Marker = int

  /** A live entity. Entities are numbered in creation order; generations are not modelled. */
  type Entity = nat

  /** Everything a load pass may change: the allocator's marker table, the next entity the
      entity allocator hands out, the `markers` storage, and one storage per tuple slot. */
  datatype State<C> = State(
    allocator: map<Marker, Entity>,
    next: Entity,
    markers: map<Entity, Marker>,
    storages: seq<map<Entity, C>>)

  /** The state after an operation, together with what it returned. */
  datatype Step<C, X> = Step(state: State<C>, out: X)

  /** The marker table and the `markers` storage are inverse to each other (so a marker names
      exactly one entity and an entity carries at most one marker), and every entity they or
      a storage mention has already been created. */
  ghost predicate Valid<C>(s: State<C>) {
    && (forall m :: m in s.allocator ==>
          s.allocator[m] < s.next && s.allocator[m] in s.markers && s.markers[s.allocator[m]] == m)
    && (forall e :: e in s.markers ==>
          e < s.next && s.markers[e] in s.allocator && s.allocator[s.markers[e]] == e)
    && (forall k, e :: 0 <= k < |s.storages| && e in s.storages[k] ==> e < s.next)
  }

  /** `t` keeps every marker mapping of `s` and every entity `s` had created. (In valid
      states this also keeps every recorded marker, since `Valid` ties the two tables.) */
  ghost predicate Extends<C>(s: State<C>, t: State<C>) {
    && s.next <= t.next
    && (forall m :: m in s.allocator ==> m in t.allocator && t.allocator[m] == s.allocator[m])
  }

  /** `MarkerAllocator::get_or_create` as the loader relies on it: a mapped marker yields its
      entity and changes nothing; an unmapped one gets a freshly created entity, which is
      marked with it and entered in the table. */
  function GetOrCreate<C>(s: State<C>, m: Marker): (r: Step<C, Entity>)
    ensures m in r.state.allocator && r.state.allocator[m] == r.out
    ensures m in s.allocator ==> r.state == s
    ensures m !in s.allocator ==>
      && r.out == s.next && r.state.next == s.next + 1
      && r.state.allocator.Keys == s.allocator.Keys + {m}
      && r.state.markers.Keys == s.markers.Keys + {r.out}
      && r.state.markers[r.out] == m
      && (forall e :: e in s.markers && e != r.out ==> r.state.markers[e] == s.markers[e])
    ensures r.state.storages == s.storages && Extends(s, r.state)
  {
    var unmapped := m !in s.allocator;
    var e := if unmapped then s.next else s.allocator[m];
    Step(s.(allocator := if unmapped then s.allocator[m := e] else s.allocator,
            next := if unmapped then e + 1 else s.next,
            markers := if unmapped then s.markers[e := m] else s.markers), e)
  }

  /** The `ids` callback handed to a component's conversion: it goes through `GetOrCreate`,
      so it never answers `None`, and what it answers is the entity the marker now names. */
  function Ids<C>(s: State<C>, m: Marker): (r: Step<C, Option<Entity>>)
    ensures m in r.state.allocator && r.out == Some(r.state.allocator[m])
    ensures r.state.storages == s.storages && Extends(s, r.state)
  {
    var g := GetOrCreate(s, m);
    Step(g.state, Some(g.out))
  }

  /** `GetOrCreate` keeps the two tables inverse, and an entity it creates is fresh: it
      carries no marker yet and no marker names it. */
  lemma GetOrCreateKeepsValid<C>(s: State<C>, m: Marker)
    requires Valid(s)
    ensures Valid(GetOrCreate(s, m).state)
    ensures m !in s.allocator ==>
      var e := GetOrCreate(s, m).out;
      e !in s.markers && forall m' :: m' in s.allocator ==> s.allocator[m'] != e
  {
  }

  /** Asking twice for the same marker within one pass creates nothing the second time. */
  lemma GetOrCreateIdempotent<C>(s: State<C>, m: Marker)
    ensures var g := GetOrCreate(s, m); GetOrCreate(g.state, m) == g
  {
  }

  /** Extending is transitive: a state two loads later keeps every mapping of the first. */
  lemma ExtendsTrans<C>(a: State<C>, b: State<C>, c: State<C>)
    requires Extends(a, b) && Extends(b, c)
    ensures Extends(a, c)
  {
  }

  /** Once a marker is mapped, every later state keeps answering with the same entity. */
  lemma MappingIsStable<C>(s: State<C>, t: State<C>, m: Marker)
    requires m in s.allocator && Extends(s, t)
    ensures GetOrCreate(t, m) == Step(t, s.allocator[m])
  {
  }
}
