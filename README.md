# Streaming entity load (saveload deserialization) in Dafny

This project models how the ECS runtime's save/load layer rebuilds entities and their
components from a stream of decoded records (`src/saveload/de.rs`).

Each record carries a marker and one optional payload per component storage. The loader
`VisitEntities` borrows four things: the marker allocator, the entity allocator, the
`markers` storage and the storages themselves. For each record, in order:

1. `get_or_create` resolves the record's marker to an entity. A marker that is already
   mapped gives back its entity. An unmapped marker gets a freshly created entity, marked
   with it.
2. The component conversions get an `ids` callback that also goes through
   `get_or_create`. A reference to a marker whose record comes later therefore creates that
   entity early. The later record then loads into that same entity, whether it comes later
   in the same stream (`StreamForwardReference`) or in a later load (`ForwardReference`).
3. `deserialize_entity` walks the slots in order. A present payload is converted and
   inserted, replacing any earlier value. An absent payload removes the component. The
   first conversion error returns at once. Nothing is rolled back.

## Layout

- `wrappers.dfy` (`Wrappers`): `Option`, `Result`, and `Outcome` for the source's
  `Result<(), E>`.
- `identity.dfy` (`Identity`): the borrowed state (`State`), its invariant `Valid` (the
  marker table and the `markers` storage are inverse to each other), and `GetOrCreate` and
  `Ids`.
- `load.dfy` (`Load`): records, decoder items, errors and converters. It also holds the
  load protocol as functions. Each is a left-to-right fold in the order the source's loops
  run: `LoadSlots` for `deserialize_entity`, `LoadRecord` for one record, and `RunRecords`
  for the `visit_seq` loop. `visit_seq` hands every element the same seed,
  `DeserializeEntity` (de.rs:196-202). Even so, `RunRecords` takes the per-record step as a
  function. That way, the loop facts that do not depend on what one record does are proved
  once, for any step: stopping at the first error, running on from record i, and keeping a
  property that every step keeps. `LoadStream` runs the loop with `RecordStep`, which is
  `LoadRecord`. `RunFrom` is the same loop read from record `i`
  onward; it serves as the loop invariant of `VisitSeq`.
- `load_properties.dfy`, `stream_properties.dfy`: what the protocol promises, proved about
  those functions.
- `visit.dfy` (`Visit.VisitEntities`): the loader as a class. Its fields are updated in
  place by methods with `modifies` clauses. Each method is proved to compute exactly what
  the matching function computes: `GetOrCreate` and `Ids` match those of `Identity`, and the
  other methods match those of `Load`.
- `scenario.dfy`: a worked load. The first record links to a marker whose record comes
  second.

Modelling choices:
- Entities are naturals handed out by a counter (`State.next`).
- Markers are integers.
- Each storage is a `map<Entity, C>`.
- The fixed-arity storage tuple (arity 0 to 8, produced by a macro) is a sequence of
  storages. It comes with an equally long sequence of converters.
- A converter (`FromDeserialize` of one component type) is a pair of functions. `refs`
  gives the markers the conversion asks `ids` about, in order. `build` builds the component
  or an error from the answers.
- The blanket conversion for a component that is its own payload is `Plain`.
- The code has unresolved merge conflicts. The model follows the side that defines
  `FromDeserialize` (de.rs:107-121) and `VisitEntities { allocator, entities, markers,
  storages }` (de.rs:169-177).
- `MarkerAllocator::get_or_create` is defined outside `de.rs`, in the marker module, and is
  not modelled. `Identity.GetOrCreate` states the behaviour the loader relies on as an assumption.
  - A mapped marker returns its entity and changes nothing.
  - An unmapped marker gets a new entity. The marker is recorded on that entity and the
    mapping is added.
- The identity layer's design lets `get_or_create` fail when a mapped
  entity has been retired. The code calls it as a function that always returns an entity
  (de.rs:83, 86). The model follows the code and has no such error.
- The decoder's output is a sequence of `Item`s. A record whose tuple has the wrong number
  of slots does not decode. It fails the same way as a `Corrupt` item, with `Malformed`.
- If two records in one stream carry the same marker, both load into the same entity
  (`SameMarkerSameEntity`). The later record's slots then replace the earlier one's, slot
  by slot, and stay in place while further records carry other markers (`RecordWins`,
  `LaterRecordWins`).

## Model

| member | source | states |
|---|---|---|
| Identity.GetOrCreate | src/saveload/de.rs:83 | Assumed allocator contract. The marker is mapped afterwards, to the returned entity. A mapped marker changes nothing. An unmapped marker gets the next entity. The marker table and `markers` each gain exactly that key. The new entity's `markers` entry is the marker, and every other `markers` entry is kept. Storages are untouched and earlier mappings are kept. |
| Identity.GetOrCreateKeepsValid | src/saveload/de.rs:83 | `get_or_create` keeps the marker table and `markers` inverse to each other. An entity it creates is fresh: no marker is on it and no earlier marker maps to it. |
| Identity.Ids | src/saveload/de.rs:86 | The `ids` callback always answers `Some`. Its answer is the entity the marker is mapped to afterwards. It touches no storage and keeps every earlier mapping. |
| Identity.GetOrCreateIdempotent | src/saveload/de.rs:83-86 | Asking `get_or_create` again for the same marker returns the same entity and changes nothing. |
| Identity.MappingIsStable | src/saveload/de.rs:83-86 | Once a marker is mapped, every state that extends this one answers `get_or_create` with the same entity and no change. |
| Load.Plain | src/saveload/de.rs:123-134 | The blanket `FromDeserialize` for a component that is its own payload: it asks `ids` about no marker and builds `Ok` of the payload. Its contract is proved in `PlainIsIdentity`. |
| Load.Insert | src/saveload/de.rs:247 | `insert` on slot k's storage: afterwards the entity holds the given value there, replacing any earlier one. Every other entry of that storage, every other storage and the identity tables are unchanged. |
| Load.Remove | src/saveload/de.rs:249 | `remove` on slot k's storage: afterwards the entity has no entry there. Every other entry of that storage, every other storage and the identity tables are unchanged. |
| Load.Resolve | src/saveload/de.rs:118-120 | Each answer `ids` gave to the markers a conversion asked about is `Some` of the entity that marker is mapped to at the end. One answer per marker. Storages are untouched and mappings only grow. |
| Load.Convert | src/saveload/de.rs:247 | `FromDeserialize::from` touches no storage. It may only add marker mappings (forward references). |
| Load.SlotStep | src/saveload/de.rs:246-250 | One slot: the number of storages is kept. An absent payload always succeeds and leaves the entity without an entry in that storage. A failing slot is one with a present payload, and it changes no storage (the `?` returns before `insert`). The full per-slot contract is `SlotOutcome` and `SlotStepFrame`. |
| Load.LoadSlots | src/saveload/de.rs:245-251 | Running the slot loop keeps the number of storages. The per-slot contract is in the `LoadProperties` lemmas. |
| Load.LoadEntity | src/saveload/de.rs:232-253 | `deserialize_entity` keeps the set of storages the same in number. Its full contract is `LoadEntityReplaces` and `LoadEntityAborts`. |
| Load.LoadRecord | src/saveload/de.rs:71-91 | Loading one record keeps the number of storages. `RecordExtends` and `LaterRecordWins` say more. |
| Load.RecordStep | src/saveload/de.rs:196-202 | The seed `visit_seq` hands every element, `DeserializeEntity` over the storage tuple: one record's step is `LoadRecord`. No contract of its own; what a step does is stated by the `StreamProperties` lemmas about `LoadRecord`. |
| Load.RunRecords | src/saveload/de.rs:195-207 | The record loop over the first k elements: in sequence order, stopping at the first error with earlier effects kept. No contract of its own; its behaviour is stated by `FailureStops`, `PassedRecordsPassed`, `RecordsPassedPassed`, `RecordsFail` and `RunKeeps`. |
| Load.RunFrom | src/saveload/de.rs:195-207 | The same loop run from record i onward. No contract of its own; `RestOfRun` proves it agrees with `RunRecords`. |
| Load.LoadStream | src/saveload/de.rs:191-208 | `visit_seq` over the whole input. No contract of its own; `StreamOutcome` states when it returns `Ok` and which error it returns otherwise, and `VisitSeq` is proved equal to it. |
| LoadProperties.ResolveKeepsValid | src/saveload/de.rs:118-120 | The conversion's calls to `ids` keep the marker table and `markers` inverse to each other. |
| LoadProperties.ConvertKeepsValid | src/saveload/de.rs:247 | A conversion keeps the marker table and `markers` inverse to each other. |
| LoadProperties.SlotStepFrame | src/saveload/de.rs:246-250 | One slot touches only its own storage, and there only the record entity's entry. It only adds marker mappings and preserves `Valid`. |
| LoadProperties.SlotsFrame | src/saveload/de.rs:242-251 | Over any prefix of slots, no entity other than the record's changes in any storage. Storages of slots not yet reached are unchanged. Mappings only grow, and `Valid` is preserved. |
| LoadProperties.FailureSticks | src/saveload/de.rs:247 | After a conversion error (`?`), later slots do nothing. |
| LoadProperties.SlotOutcome | src/saveload/de.rs:246-250 | Reaching slot k with no error, the slot succeeds exactly when its payload is absent or converts. On success its effect is in place: an absent payload leaves no entry, and a present one stores the converted value. |
| LoadProperties.PassedSlotsConverted | src/saveload/de.rs:245-251 | If a prefix of slots succeeds, each of its present payloads converted in the state its slot was reached in. |
| LoadProperties.ConvertedSlotsPassed | src/saveload/de.rs:245-251 | If each present payload of a prefix of slots converts in the state its slot is reached in, the prefix succeeds. |
| LoadProperties.SlotsApplied | src/saveload/de.rs:245-251 | If a prefix of slots succeeds, each of those slots' effects is in place at the end: no entry for an absent payload, and the converted value for a present one. |
| LoadProperties.SlotsExtendFrom | src/saveload/de.rs:245-251 | Between any two slots of `deserialize_entity`, marker mappings are only added: a marker mapped when slot k is reached names the same entity at every later slot and at the end. |
| LoadProperties.SlotAnswerStays | src/saveload/de.rs:246-247 | If `deserialize_entity` reaches slot k without error, every answer `ids` gives that slot's conversion still holds when the call returns: the marker asked about names the entity answered. |
| LoadProperties.LoadEntityReplaces | src/saveload/de.rs:232-253 | `deserialize_entity` succeeds exactly when every present payload converts. On success, every present payload's converted value is stored for the entity (replacing any earlier value), and every absent payload's component is gone: full replacement, not merge. In every case, other entities' entries are unchanged, storages keep their number, mappings only grow, and `Valid` is preserved. |
| LoadProperties.LoadEntityAborts | src/saveload/de.rs:245-251 | If slot k is the first to fail, the call returns that conversion's error. The storages are exactly those after slots 0..k-1, whose effects stay in place. Slot k's storage and every later storage are as they were before the call. |
| LoadProperties.PlainIsIdentity | src/saveload/de.rs:123-134 | The blanket conversion returns its payload unchanged, never fails, and changes no state (it asks `ids` nothing). |
| LoadProperties.PlainSlots | src/saveload/de.rs:245-251 | With plain components only, a prefix of slots always succeeds. Each slot reached holds exactly its payload, or lacks the entity when the payload is absent. Later storages are unchanged, and the identity tables do not change. |
| LoadProperties.PlainLoadEntity | src/saveload/de.rs:130-133 | With plain components only, `deserialize_entity` never fails. Afterwards each storage is the old one with the entity's entry replaced by the payload, or removed when the slot is absent. Nothing else changes. |
| StreamProperties.RecordExtends | src/saveload/de.rs:82-90 | Loading one record, successful or not, only adds marker mappings and preserves `Valid`. |
| StreamProperties.RecordsExtend | src/saveload/de.rs:195-207 | Loading any prefix of the stream keeps the number of storages, only adds marker mappings, and preserves `Valid`. |
| StreamProperties.FailureStops | src/saveload/de.rs:196-202 | Whatever one record's step does: after a record fails (`?` on `next_element_seed`), no later record is processed. |
| StreamProperties.PassedRecordsPassed | src/saveload/de.rs:195-207 | Whatever one record's step does: if a prefix of the stream loads without error, each of its records loaded without error in the state its predecessors left. |
| StreamProperties.RecordsPassedPassed | src/saveload/de.rs:195-207 | Whatever one record's step does: if each record of a prefix loads without error in the state its predecessors left, the prefix loads without error. |
| StreamProperties.RecordsFail | src/saveload/de.rs:195-207 | Whatever one record's step does: if a prefix fails, some record i in it is the first to fail. The result is that record's error, in the state record i leaves after every earlier record was loaded. |
| StreamProperties.RestOfRun | src/saveload/de.rs:195-207 | Whatever one record's step does: once the first i records have loaded without error, running the loop on from record i gives the result of the whole loop. |
| StreamProperties.StreamOutcome | src/saveload/de.rs:191-208 | `visit_seq` returns `Ok` exactly when every record, in order, loads without error. Otherwise it returns the first failing record's error, with earlier records' effects kept and later records not processed. |
| StreamProperties.PrefixPasses | src/saveload/de.rs:195-207 | Whatever one record's step does: if a prefix of the stream loads without error, so does every shorter prefix. |
| StreamProperties.PassesAt | src/saveload/de.rs:195-207 | Whatever one record's step does: if records 0..j-1 load without error, then for each i < j, the loop's result after record i is that record's step from the state records 0..i-1 left, and that step passes. |
| StreamProperties.RunKeeps | src/saveload/de.rs:195-207 | Whatever one record's step does: a property of the state that holds after record i-1 and that every later step keeps still holds after any later record. |
| StreamProperties.KeepsAfter | src/saveload/de.rs:195-207 | Whatever one record's step does: if the loop gets past record i without error, and record i's step establishes a property that the steps of records i+1..j-1 keep, the property holds after record j-1. |
| StreamProperties.RecordsExtendFrom | src/saveload/de.rs:195-207 | Between any two points of the record loop, marker mappings are only added and `Valid` is preserved. |
| StreamProperties.RecordFrame | src/saveload/de.rs:82-90 | In a valid state, a record whose marker is not m, whether it loads or fails, leaves the entries of the entity m names exactly as they were, in every storage. |
| StreamProperties.OtherRecordsKeep | src/saveload/de.rs:195-207 | In a valid stream run, records that carry markers other than m leave the entries of the entity m names exactly as they were, in every storage. |
| StreamProperties.RecordMapsMarker | src/saveload/de.rs:82-90 | A record that loads had one slot per storage. Afterwards, its marker still names the entity `get_or_create` answered for it. |
| StreamProperties.RecordLoadsInto | src/saveload/de.rs:82-90 | In a valid state, a record that loads is loaded into the entity `get_or_create` answers for its marker, whether the marker was mapped before or not. Afterwards its marker names that entity, the state is valid, and every slot's effect is in place on it. |
| StreamProperties.ForwardReference | src/saveload/de.rs:83-86 | Suppose a conversion's `ids` answered entity e for marker m in some state, and t is any later state. If record j of a stream run from t carries m and loads, then `get_or_create` answers e without change. Each of the record's slots is in place on e: no entry for an absent payload, the converted value for a present one. Every other entity's entries are unchanged in every storage. |
| StreamProperties.SlotQuery | src/saveload/de.rs:86 | The question a slot's conversion puts to `ids` (its p-th referenced marker) and the answer; `ids` never answers `None`, because it always goes through `get_or_create`. |
| StreamProperties.RecordRef | src/saveload/de.rs:86-89 | In a record that loads, every answer `ids` gave one of its slots still holds after the record: the marker asked about is mapped to the entity answered. |
| StreamProperties.StreamForwardReference | src/saveload/de.rs:83-86 | Within one `visit_seq` run: if slot k of record i asks `ids` about marker m and is answered entity a, and a later record j carries m, then when the loop reaches record j without error, `get_or_create` answers a for m and changes nothing. The forward reference and the later record name the same entity; with `RecordWins`, record j's slots are then in place on a. |
| StreamProperties.SameMarkerSameEntity | src/saveload/de.rs:83 | If records i < j carry the same marker and the loop gets to record j without error, then at record j the marker names the entity `get_or_create` answered at record i, and `get_or_create` answers it again there without change. |
| StreamProperties.RecordWins | src/saveload/de.rs:195-207 | In a valid stream run, if record j loads, it is loaded into the entity `get_or_create` answers for its marker at that point, whether that entity is new or already mapped. After any further records that carry other markers, the marker still names that entity, and each slot of it holds exactly record j's effect: no entry for an absent payload, the converted value for a present one. |
| StreamProperties.LaterRecordWins | src/saveload/de.rs:82-90 | Two records i < j with the same marker load into the same entity, the one `get_or_create` answered at record i. If record j loads, then after any further records that carry other markers, each slot of that entity holds exactly record j's effect, whatever record i or the records between them said. |
| Scenario.ForwardLinkResolves | src/saveload/de.rs:83-89 | Loading `[{marker 2, links [1]}, {marker 1, links []}]` into an empty world creates entities 0 and 1. The first record's link is `Some(1)`, the entity that marker 1's record is later loaded into. |
| Visit.VisitEntities.constructor | src/saveload/de.rs:45-51 | The loader borrows exactly the given state. |
| Visit.VisitEntities.GetOrCreate | src/saveload/de.rs:83 | Updates the allocator, entity counter and `markers` in place, exactly as `Identity.GetOrCreate`. |
| Visit.VisitEntities.Ids | src/saveload/de.rs:86 | The `ids` closure updates state and answers exactly as `Identity.Ids`. |
| Visit.VisitEntities.From | src/saveload/de.rs:247 | The conversion call, with one `ids` call per referenced marker, computes exactly `Load.Convert`. |
| Visit.VisitEntities.DeserializeEntity | src/saveload/de.rs:232-253 | The in-place slot loop, with its early return on error, leaves the state and returns exactly what `Load.LoadEntity` says. |
| Visit.VisitEntities.DeserializeRecord | src/saveload/de.rs:71-91 | Decoding one record, resolving its marker, loading its components and wrapping an error computes exactly `Load.LoadRecord`. |
| Visit.VisitEntities.VisitSeq | src/saveload/de.rs:191-208 | The record loop, with its early return on error, computes exactly `Load.LoadStream`. |

## Left out

- The serde machinery is not modelled: `Deserializer`, `SeqAccess`, `DeserializeSeed`,
  `EntityData::deserialize` and `Visitor::expecting`. Its output is taken as an
  already-decoded sequence of `Item`s, where `Corrupt` stands for a decode failure.
- The error's message and `de::Error::custom` formatting are not modelled. A conversion
  error is carried unchanged inside `LoadError.Custom`.
- `DeserializeComponents::deserialize` (de.rs:35-52) only builds a `VisitEntities` and
  hands it to the decoder. Here that is the constructor followed by `VisitSeq`.
- The storage tuple holds one component type per slot, and its `Data` has one payload type
  per slot (de.rs:225-229). The model uses a single component type `C` and a single payload
  type `D` for all slots; the host's component and payload types are their cases.
- The converter's calls to `ids` come from outside this file. The model assumes a
  conversion asks about all the markers it references, in order, before it builds or
  fails. A conversion that fails part-way through its lookups would create fewer entities
  than modelled.
- Entity generations, bitsets, storage policies and the internals of `EntitiesRes`,
  `WriteStorage` and `MarkerAllocator` are not modelled. Entities come from a counter, and
  storages and tables are maps.
- The other side of each merge conflict is not modelled: `Components`, `Storages`,
  `WorldDeserialize` and the free `deserialize` function (de.rs:96-103, 137-167).
- `examples/basic.rs` is not modelled. It is a demo program with printing, threads,
  floating point and JSON encoding.
