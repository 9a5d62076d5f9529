/** What the load protocol promises, proved about the functions of module `Load`. */
module LoadProperties {
  import opened Wrappers
  import opened Identity
  import opened Load

  /** Slot `j` of the record converts (or is absent) in the state it is reached in. */
  ghost predicate SlotConverts<D, C, E>(s: State<C>, e: Entity, comps: seq<Option<D>>,
                                        convs: seq<Converter<D, C, E>>, j: nat)
    requires Shaped(s, comps, convs) && j < |comps|
  {
    comps[j].Some? ==> Convert(LoadSlots(s, e, comps, convs, j).state, convs[j], comps[j].value).out.Ok?
  }

  /** Slot `j`'s effect is what `t` shows for `e`: no entry for an absent payload, and for a
      present one the value its conversion produced when slot `j` was reached. */
  ghost predicate SlotApplied<D, C, E>(t: State<C>, s: State<C>, e: Entity, comps: seq<Option<D>>,
                                       convs: seq<Converter<D, C, E>>, j: nat)
    requires Shaped(s, comps, convs) && j < |comps| && |t.storages| == |comps|
  {
    match comps[j]
    case None => e !in t.storages[j]
    case Some(d) =>
      e in t.storages[j] &&
      Convert(LoadSlots(s, e, comps, convs, j).state, convs[j], d).out == Ok(t.storages[j][e])
  }

  /** The conversions' calls to `ids` keep the state valid. */
  lemma {:induction false} ResolveKeepsValid<C>(s: State<C>, ms: seq<Marker>)
    requires Valid(s)
    ensures Valid(Resolve(s, ms).state)
    decreases |ms|
  {
    if ms != [] {
      ResolveKeepsValid(s, ms[..|ms| - 1]);
      GetOrCreateKeepsValid(Resolve(s, ms[..|ms| - 1]).state, ms[|ms| - 1]);
    }
  }

  /** A conversion keeps the state valid. */
  lemma ConvertKeepsValid<D, C, E>(s: State<C>, conv: Converter<D, C, E>, d: D)
    requires Valid(s)
    ensures Valid(Convert(s, conv, d).state)
  {
    ResolveKeepsValid(s, conv.refs(d));
  }

  /** One slot step touches only storage `k`, and there only the entry for `e`. */
  lemma SlotStepFrame<D, C, E>(s: State<C>, e: Entity, k: nat, slot: Option<D>, conv: Converter<D, C, E>)
    requires k < |s.storages|
    ensures var t := SlotStep(s, e, k, slot, conv).state;
      && Extends(s, t)
      && |t.storages| == |s.storages|
      && (forall j :: 0 <= j < |s.storages| && j != k ==> t.storages[j] == s.storages[j])
      && t.storages[k] - {e} == s.storages[k] - {e}
      && (Valid(s) && e < s.next ==> Valid(t))
  {
    var t := SlotStep(s, e, k, slot, conv).state;
    if slot.Some? {
      var c := Convert(s, conv, slot.value);
      if Valid(s) {
        ConvertKeepsValid(s, conv, slot.value);
      }
      assert t.storages[k] - {e} == c.state.storages[k] - {e};
    } else {
      assert t.storages[k] - {e} == s.storages[k] - {e};
    }
  }

  /** Loading slots touches no entity but `e`, leaves the storages of slots not yet reached
      alone, only adds to the marker table, and keeps the state valid. */
  lemma {:induction false} SlotsFrame<D, C, E>(s: State<C>, e: Entity, comps: seq<Option<D>>,
                                               convs: seq<Converter<D, C, E>>, k: nat)
    requires Shaped(s, comps, convs) && k <= |comps|
    ensures var t := LoadSlots(s, e, comps, convs, k).state;
      && Extends(s, t)
      && (forall j :: 0 <= j < |comps| ==> t.storages[j] - {e} == s.storages[j] - {e})
      && (forall j :: k <= j < |comps| ==> t.storages[j] == s.storages[j])
      && (Valid(s) && e < s.next ==> Valid(t))
  {
    if k > 0 {
      SlotsFrame(s, e, comps, convs, k - 1);
      var prev := LoadSlots(s, e, comps, convs, k - 1);
      if prev.out.Pass? {
        SlotStepFrame(prev.state, e, k - 1, comps[k - 1], convs[k - 1]);
      }
    }
  }

  /** Once a slot fails, later slots do nothing. */
  lemma {:induction false} FailureSticks<D, C, E>(s: State<C>, e: Entity, comps: seq<Option<D>>,
                                                  convs: seq<Converter<D, C, E>>, i: nat, k: nat)
    requires Shaped(s, comps, convs) && i <= k <= |comps|
    requires LoadSlots(s, e, comps, convs, i).out.Fail?
    ensures LoadSlots(s, e, comps, convs, k) == LoadSlots(s, e, comps, convs, i)
  {
    if k > i {
      FailureSticks(s, e, comps, convs, i, k - 1);
    }
  }

  /** Reaching slot `k` with no error so far, the slot passes exactly when it converts, and
      then its effect is in place. */
  lemma SlotOutcome<D, C, E>(s: State<C>, e: Entity, comps: seq<Option<D>>,
                             convs: seq<Converter<D, C, E>>, k: nat)
    requires Shaped(s, comps, convs) && k < |comps|
    requires LoadSlots(s, e, comps, convs, k).out == Pass
    ensures var r := LoadSlots(s, e, comps, convs, k + 1);
      && (r.out == Pass <==> SlotConverts(s, e, comps, convs, k))
      && (r.out == Pass ==> SlotApplied(r.state, s, e, comps, convs, k))
  {
  }

  /** When slots `0 .. k-1` all pass, each of them converts. */
  lemma {:induction false} PassedSlotsConverted<D, C, E>(s: State<C>, e: Entity, comps: seq<Option<D>>,
                                                         convs: seq<Converter<D, C, E>>, k: nat)
    requires Shaped(s, comps, convs) && k <= |comps|
    requires LoadSlots(s, e, comps, convs, k).out == Pass
    ensures forall j :: 0 <= j < k ==> SlotConverts(s, e, comps, convs, j)
  {
    if k > 0 {
      assert LoadSlots(s, e, comps, convs, k - 1).out == Pass;
      PassedSlotsConverted(s, e, comps, convs, k - 1);
      SlotOutcome(s, e, comps, convs, k - 1);
      assert SlotConverts(s, e, comps, convs, k - 1);
    }
  }

  /** When each of slots `0 .. k-1` converts, they all pass. */
  lemma {:induction false} ConvertedSlotsPassed<D, C, E>(s: State<C>, e: Entity, comps: seq<Option<D>>,
                                                         convs: seq<Converter<D, C, E>>, k: nat)
    requires Shaped(s, comps, convs) && k <= |comps|
    requires forall j :: 0 <= j < k ==> SlotConverts(s, e, comps, convs, j)
    ensures LoadSlots(s, e, comps, convs, k).out == Pass
  {
    if k > 0 {
      ConvertedSlotsPassed(s, e, comps, convs, k - 1);
      assert SlotConverts(s, e, comps, convs, k - 1);
      SlotOutcome(s, e, comps, convs, k - 1);
    }
  }

  /** When slots `0 .. k-1` all pass, each one's effect is in place at the end. */
  lemma {:induction false} SlotsApplied<D, C, E>(s: State<C>, e: Entity, comps: seq<Option<D>>,
                                                 convs: seq<Converter<D, C, E>>, k: nat)
    requires Shaped(s, comps, convs) && k <= |comps|
    requires LoadSlots(s, e, comps, convs, k).out == Pass
    ensures forall j :: 0 <= j < k ==> SlotApplied(LoadSlots(s, e, comps, convs, k).state, s, e, comps, convs, j)
  {
    if k > 0 {
      var prev := LoadSlots(s, e, comps, convs, k - 1);
      var r := LoadSlots(s, e, comps, convs, k);
      assert prev.out == Pass;
      SlotsApplied(s, e, comps, convs, k - 1);
      SlotOutcome(s, e, comps, convs, k - 1);
      SlotStepFrame(prev.state, e, k - 1, comps[k - 1], convs[k - 1]);
      forall j | 0 <= j < k - 1
        ensures SlotApplied(r.state, s, e, comps, convs, j)
      {
        assert r.state.storages[j] == prev.state.storages[j];
        assert SlotApplied(prev.state, s, e, comps, convs, j);
      }
    }
  }

  /** Between any two slots of `deserialize_entity`, marker mappings are only added. */
  lemma {:induction false} SlotsExtendFrom<D, C, E>(s: State<C>, e: Entity, comps: seq<Option<D>>,
                                                    convs: seq<Converter<D, C, E>>, k: nat, n: nat)
    requires Shaped(s, comps, convs) && k <= n <= |comps|
    ensures Extends(LoadSlots(s, e, comps, convs, k).state, LoadSlots(s, e, comps, convs, n).state)
  {
    if n > k {
      SlotsExtendFrom(s, e, comps, convs, k, n - 1);
      var prev := LoadSlots(s, e, comps, convs, n - 1);
      if prev.out.Pass? {
        SlotStepFrame(prev.state, e, n - 1, comps[n - 1], convs[n - 1]);
      }
    }
  }

  /** An answer `ids` gives the conversion of a slot that is reached stays true to the end of
      `deserialize_entity`: the marker asked about still names the entity answered. */
  lemma SlotAnswerStays<D, C, E>(s: State<C>, e: Entity, comps: seq<Option<D>>,
                                 convs: seq<Converter<D, C, E>>, k: nat, p: nat)
    requires Shaped(s, comps, convs) && k < |comps| && comps[k].Some?
    requires p < |convs[k].refs(comps[k].value)|
    requires LoadSlots(s, e, comps, convs, k).out == Pass
    ensures var refs := convs[k].refs(comps[k].value);
            var t := LoadEntity(s, e, comps, convs).state;
      && refs[p] in t.allocator
      && Resolve(LoadSlots(s, e, comps, convs, k).state, refs).out[p] == Some(t.allocator[refs[p]])
  {
    var refs := convs[k].refs(comps[k].value);
    var pre := LoadSlots(s, e, comps, convs, k).state;
    var ids := Resolve(pre, refs);
    var mid := LoadSlots(s, e, comps, convs, k + 1).state;
    var t := LoadEntity(s, e, comps, convs).state;
    assert refs[p] in ids.state.allocator && ids.out[p] == Some(ids.state.allocator[refs[p]]);
    assert Extends(ids.state, mid);
    assert t == LoadSlots(s, e, comps, convs, |comps|).state;
    SlotsExtendFrom(s, e, comps, convs, k + 1, |comps|);
    ExtendsTrans(ids.state, mid, t);
    MappingIsStable(ids.state, t, refs[p]);
  }

  /** `deserialize_entity` replaces rather than merges: on success every present payload's
      converted value is stored for `e` (replacing any earlier one) and every absent payload's
      component is removed; it succeeds exactly when every present payload converts; whatever
      happens, no other entity's entries change, the storages stay the same in number, and
      the marker table only grows. */
  lemma LoadEntityReplaces<D, C, E>(s: State<C>, e: Entity, comps: seq<Option<D>>,
                                    convs: seq<Converter<D, C, E>>)
    requires Shaped(s, comps, convs)
    ensures var r := LoadEntity(s, e, comps, convs);
      && (r.out == Pass <==> forall k :: 0 <= k < |comps| ==> SlotConverts(s, e, comps, convs, k))
      && (r.out == Pass ==> forall k :: 0 <= k < |comps| ==> SlotApplied(r.state, s, e, comps, convs, k))
      && |r.state.storages| == |s.storages|
      && (forall k :: 0 <= k < |comps| ==> r.state.storages[k] - {e} == s.storages[k] - {e})
      && Extends(s, r.state)
      && (Valid(s) && e < s.next ==> Valid(r.state))
  {
    if LoadEntity(s, e, comps, convs).out == Pass {
      PassedSlotsConverted(s, e, comps, convs, |comps|);
      SlotsApplied(s, e, comps, convs, |comps|);
    }
    if forall k :: 0 <= k < |comps| ==> SlotConverts(s, e, comps, convs, k) {
      ConvertedSlotsPassed(s, e, comps, convs, |comps|);
    }
    SlotsFrame(s, e, comps, convs, |comps|);
  }

  /** A conversion error at slot `k` aborts `deserialize_entity` with that error: slots
      before `k` keep their effects, and slot `k` and every later slot's storage is as it
      was before the call. */
  lemma LoadEntityAborts<D, C, E>(s: State<C>, e: Entity, comps: seq<Option<D>>,
                                  convs: seq<Converter<D, C, E>>, k: nat)
    requires Shaped(s, comps, convs) && k < |comps|
    requires LoadSlots(s, e, comps, convs, k).out == Pass
    requires !SlotConverts(s, e, comps, convs, k)
    ensures var before := LoadSlots(s, e, comps, convs, k).state;
            var r := LoadEntity(s, e, comps, convs);
      && r.out == Fail(Convert(before, convs[k], comps[k].value).out.error)
      && r.state.storages == before.storages
      && (forall j :: 0 <= j < k ==> SlotApplied(r.state, s, e, comps, convs, j))
      && (forall j :: k <= j < |comps| ==> r.state.storages[j] == s.storages[j])
  {
    SlotsApplied(s, e, comps, convs, k);
    SlotsFrame(s, e, comps, convs, k);
    FailureSticks(s, e, comps, convs, k + 1, |comps|);
    var before := LoadSlots(s, e, comps, convs, k).state;
    var r := LoadEntity(s, e, comps, convs);
    forall j | 0 <= j < k
      ensures SlotApplied(r.state, s, e, comps, convs, j)
    {
      assert SlotApplied(before, s, e, comps, convs, j);
    }
  }

  /** The blanket conversion of a plain component returns the payload, never fails and asks
      `ids` nothing. */
  lemma PlainIsIdentity<C, E>(s: State<C>, d: C)
    ensures Convert(s, Plain<C, E>(), d) == Step(s, Ok(d))
  {
  }

  /** Insert-or-remove of one slot, as a reference for plain components. */
  function Replaced<C>(m: map<Entity, C>, e: Entity, slot: Option<C>): map<Entity, C> {
    match slot
    case None => m - {e}
    case Some(v) => m[e := v]
  }

  /** With plain components only, slots `0 .. k-1` always load: each one reached holds its
      payload for `e`, or lacks `e` when absent, later storages are untouched, and the
      identity tables do not change. */
  lemma {:induction false} PlainSlots<C, E>(s: State<C>, e: Entity, comps: seq<Option<C>>,
                                            convs: seq<Converter<C, C, E>>, k: nat)
    requires Shaped(s, comps, convs) && k <= |comps|
    requires forall j :: 0 <= j < |convs| ==> convs[j] == Plain()
    ensures var r := LoadSlots(s, e, comps, convs, k);
      && r.out == Pass
      && r.state == s.(storages := r.state.storages)
      && |r.state.storages| == |s.storages|
      && forall j :: 0 <= j < |comps| ==>
           r.state.storages[j] == if j < k then Replaced(s.storages[j], e, comps[j]) else s.storages[j]
  {
    if k > 0 {
      PlainSlots(s, e, comps, convs, k - 1);
      var prev := LoadSlots(s, e, comps, convs, k - 1);
      if comps[k - 1].Some? {
        PlainIsIdentity<C, E>(prev.state, comps[k - 1].value);
      }
    }
  }

  /** With plain components only, a record cannot fail and leaves exactly its payloads on
      `e`: each storage ends up with the payload for `e`, or without `e` when the slot is
      absent, and nothing else changes. */
  lemma PlainLoadEntity<C, E>(s: State<C>, e: Entity, comps: seq<Option<C>>,
                              convs: seq<Converter<C, C, E>>)
    requires Shaped(s, comps, convs)
    requires forall j :: 0 <= j < |convs| ==> convs[j] == Plain()
    ensures var r := LoadEntity(s, e, comps, convs);
      && r.out == Pass
      && r.state == s.(storages := r.state.storages)
      && |r.state.storages| == |s.storages|
      && forall k :: 0 <= k < |comps| ==> r.state.storages[k] == Replaced(s.storages[k], e, comps[k])
  {
    PlainSlots(s, e, comps, convs, |comps|);
  }
}
