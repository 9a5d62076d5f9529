/** What the record loop of `visit_seq` promises, proved about `Load.RunRecords`. */
module StreamProperties {
  import opened Wrappers
  import opened Identity
  import opened Load
  import opened LoadProperties

  /** Loading one record only adds to the marker table, keeps the number of storages and
      keeps the state valid. */
  lemma RecordExtends<D, C, E>(s: State<C>, item: Item<D>, convs: seq<Converter<D, C, E>>)
    requires |convs| == |s.storages|
    ensures Extends(s, LoadRecord(s, item, convs).state)
    ensures Valid(s) ==> Valid(LoadRecord(s, item, convs).state)
  {
    if item.Entry? && |item.record.components| == |convs| {
      var g := GetOrCreate(s, item.record.marker);
      if Valid(s) {
        GetOrCreateKeepsValid(s, item.record.marker);
      }
      SlotsFrame(g.state, g.out, item.record.components, convs, |convs|);
    }
  }

  /** Loading records only adds to the marker table, keeps the number of storages and keeps
      the state valid. */
  lemma {:induction false} RecordsExtend<D, C, E>(s: State<C>, items: seq<Item<D>>,
                                                  convs: seq<Converter<D, C, E>>, k: nat)
    requires |convs| == |s.storages| && k <= |items|
    ensures var t := RunRecords(s, items, RecordStep(convs), k).state;
      |t.storages| == |s.storages| && Extends(s, t) && (Valid(s) ==> Valid(t))
  {
    if k > 0 {
      RecordsExtend(s, items, convs, k - 1);
      var prev := RunRecords(s, items, RecordStep(convs), k - 1);
      if prev.out.Pass? {
        RecordExtends(prev.state, items[k - 1], convs);
      }
    }
  }

  /** Record `i` loads without error, under the seed `step`, in the state the records before
      it left. */
  ghost predicate RecordPasses<D, C, X>(s: State<C>, items: seq<Item<D>>,
                                        step: (State<C>, Item<D>) -> Step<C, Outcome<X>>, i: nat)
    requires i < |items|
  {
    step(RunRecords(s, items, step, i).state, items[i]).out == Pass
  }

  /** After the first error nothing more is loaded. */
  lemma {:induction false} FailureStops<D, C, X>(s: State<C>, items: seq<Item<D>>,
                                                 step: (State<C>, Item<D>) -> Step<C, Outcome<X>>,
                                                 i: nat, k: nat)
    requires i <= k <= |items|
    requires RunRecords(s, items, step, i).out.Fail?
    ensures RunRecords(s, items, step, k) == RunRecords(s, items, step, i)
  {
    if k > i {
      FailureStops(s, items, step, i, k - 1);
    }
  }

  /** A prefix that loads without error had every record in it load without error. */
  lemma {:induction false} PassedRecordsPassed<D, C, X>(s: State<C>, items: seq<Item<D>>,
                                                        step: (State<C>, Item<D>) -> Step<C, Outcome<X>>,
                                                        k: nat)
    requires k <= |items|
    requires RunRecords(s, items, step, k).out == Pass
    ensures forall i :: 0 <= i < k ==> RecordPasses(s, items, step, i)
  {
    if k > 0 {
      var prev := RunRecords(s, items, step, k - 1);
      assert prev.out == Pass;
      PassedRecordsPassed(s, items, step, k - 1);
      assert RecordPasses(s, items, step, k - 1);
    }
  }

  /** A prefix whose every record loads without error loads without error. */
  lemma {:induction false} RecordsPassedPassed<D, C, X>(s: State<C>, items: seq<Item<D>>,
                                                        step: (State<C>, Item<D>) -> Step<C, Outcome<X>>,
                                                        k: nat)
    requires k <= |items|
    requires forall i :: 0 <= i < k ==> RecordPasses(s, items, step, i)
    ensures RunRecords(s, items, step, k).out == Pass
  {
    if k > 0 {
      RecordsPassedPassed(s, items, step, k - 1);
      assert RecordPasses(s, items, step, k - 1);
    }
  }

  /** A prefix that fails ends with the result of its first failing record. */
  lemma {:induction false} RecordsFail<D, C, X>(s: State<C>, items: seq<Item<D>>,
                                                step: (State<C>, Item<D>) -> Step<C, Outcome<X>>,
                                                k: nat)
    requires k <= |items|
    requires RunRecords(s, items, step, k).out.Fail?
    ensures exists i :: 0 <= i < k && RunRecords(s, items, step, i).out == Pass
                     && RunRecords(s, items, step, k) == step(RunRecords(s, items, step, i).state, items[i])
  {
    var prev := RunRecords(s, items, step, k - 1);
    if prev.out.Fail? {
      RecordsFail(s, items, step, k - 1);
    } else {
      assert RunRecords(s, items, step, k - 1).out == Pass;
    }
  }

  /** A prefix of a prefix that loads without error loads without error. */
  lemma {:induction false} PrefixPasses<D, C, X>(s: State<C>, items: seq<Item<D>>,
                                                 step: (State<C>, Item<D>) -> Step<C, Outcome<X>>, i: nat, k: nat)
    requires i <= k <= |items|
    requires RunRecords(s, items, step, k).out == Pass
    ensures RunRecords(s, items, step, i).out == Pass
  {
    if RunRecords(s, items, step, i).out.Fail? {
      FailureStops(s, items, step, i, k);
    }
  }

  /** When records `0 .. j-1` load without error, record `i < j` loads without error from
      the state records `0 .. i-1` left, and that step is what the loop took. */
  lemma {:induction false} PassesAt<D, C, X>(s: State<C>, items: seq<Item<D>>,
                                             step: (State<C>, Item<D>) -> Step<C, Outcome<X>>,
                                             i: nat, j: nat)
    requires i < j <= |items| && RunRecords(s, items, step, j).out == Pass
    ensures RunRecords(s, items, step, i).out == Pass
    ensures RunRecords(s, items, step, i + 1) == step(RunRecords(s, items, step, i).state, items[i])
    ensures step(RunRecords(s, items, step, i).state, items[i]).out == Pass
  {
    PrefixPasses(s, items, step, i + 1, j);
  }

  /** The premise of `RunKeeps` at one record `q` and one state `x`. */
  lemma StepKeeps<D, C, X>(items: seq<Item<D>>, step: (State<C>, Item<D>) -> Step<C, Outcome<X>>,
                           inv: State<C> -> bool, i: nat, k: nat, x: State<C>, q: nat)
    requires i <= q < k <= |items| && inv(x)
    requires forall y: State<C>, p :: i <= p < k && inv(y) ==> inv(step(y, items[p]).state)
    ensures inv(step(x, items[q]).state)
  {
  }

  /** A state property that the step of every record `i .. k-1` keeps holds at point `k`
      of the loop when it holds at point `i`. */
  lemma {:induction false} RunKeeps<D, C, X>(s: State<C>, items: seq<Item<D>>,
                                             step: (State<C>, Item<D>) -> Step<C, Outcome<X>>,
                                             inv: State<C> -> bool, i: nat, k: nat)
    requires i <= k <= |items|
    requires inv(RunRecords(s, items, step, i).state)
    requires forall x: State<C>, q :: i <= q < k && inv(x) ==> inv(step(x, items[q]).state)
    ensures inv(RunRecords(s, items, step, k).state)
  {
    if k > i {
      RunKeeps(s, items, step, inv, i, k - 1);
      var prev := RunRecords(s, items, step, k - 1);
      if prev.out.Pass? {
        StepKeeps(items, step, inv, i, k, prev.state, k - 1);
      }
    }
  }

  /** Running the rest of the loop from where records `0 .. i-1` left off gives the result
      of the whole loop. */
  lemma {:induction false} RestOfRun<D, C, X>(s: State<C>, items: seq<Item<D>>,
                                              step: (State<C>, Item<D>) -> Step<C, Outcome<X>>, i: nat)
    requires i <= |items| && RunRecords(s, items, step, i).out == Pass
    ensures RunFrom(RunRecords(s, items, step, i).state, items, step, i) == RunRecords(s, items, step, |items|)
    decreases |items| - i
  {
    if i < |items| {
      var next := RunRecords(s, items, step, i + 1);
      if next.out.Fail? {
        FailureStops(s, items, step, i + 1, |items|);
      } else {
        RestOfRun(s, items, step, i + 1);
      }
    }
  }

  /** `visit_seq` loads the records strictly in order: it returns `Ok` exactly when every
      record loads in the state its predecessors left, and otherwise returns the error of the
      first record that fails, in the state that record left behind: every earlier record's
      effects are kept, and no later record is looked at. */
  lemma StreamOutcome<D, C, E>(s: State<C>, items: seq<Item<D>>, convs: seq<Converter<D, C, E>>)
    ensures var r := LoadStream(s, items, convs);
            var step := RecordStep(convs);
      && (r.out == Pass <==> forall i :: 0 <= i < |items| ==> RecordPasses(s, items, step, i))
      && (r.out.Fail? ==> exists i :: 0 <= i < |items| && RunRecords(s, items, step, i).out == Pass
                                    && r == LoadRecord(RunRecords(s, items, step, i).state, items[i], convs))
  {
    var step := RecordStep(convs);
    if forall i :: 0 <= i < |items| ==> RecordPasses(s, items, step, i) {
      RecordsPassedPassed(s, items, step, |items|);
    }
    if LoadStream(s, items, convs).out == Pass {
      PassedRecordsPassed(s, items, step, |items|);
    } else {
      RecordsFail(s, items, step, |items|);
    }
  }

  /** `t` has the same storages as `s` in number, and the same entries for entity `e`. */
  ghost predicate EntriesKept<C>(s: State<C>, t: State<C>, e: Entity) {
    && |t.storages| == |s.storages|
    && forall k :: 0 <= k < |s.storages| ==>
         && (e in t.storages[k] <==> e in s.storages[k])
         && (e in s.storages[k] ==> t.storages[k][e] == s.storages[k][e])
  }

  /** In a valid state, a record carrying another marker than `m`, whether it loads or fails,
      leaves the entries of the entity `m` names alone: its own marker names a different
      entity, and loading touches no entity but its own. */
  lemma RecordFrame<D, C, E>(s: State<C>, item: Item<D>, convs: seq<Converter<D, C, E>>, m: Marker)
    requires Valid(s) && |convs| == |s.storages| && m in s.allocator
    requires item.Entry? ==> item.record.marker != m
    ensures EntriesKept(s, LoadRecord(s, item, convs).state, s.allocator[m])
  {
    if item.Entry? && |item.record.components| == |convs| {
      var rec := item.record;
      var g := GetOrCreate(s, rec.marker);
      var e := s.allocator[m];
      GetOrCreateKeepsValid(s, rec.marker);
      assert g.out != e by {
        if rec.marker in s.allocator {
          assert s.markers[s.allocator[rec.marker]] == rec.marker;
        }
      }
      SlotsFrame(g.state, g.out, rec.components, convs, |convs|);
      var t := LoadRecord(s, item, convs).state;
      forall k | 0 <= k < |s.storages|
        ensures && (e in t.storages[k] <==> e in s.storages[k])
                && (e in s.storages[k] ==> t.storages[k][e] == s.storages[k][e])
      {
        assert t.storages[k] - {g.out} == s.storages[k] - {g.out};
        assert e in t.storages[k] <==> e in t.storages[k] - {g.out};
        assert e in s.storages[k] <==> e in s.storages[k] - {g.out};
        if e in s.storages[k] {
          assert (t.storages[k] - {g.out})[e] == t.storages[k][e];
          assert (s.storages[k] - {g.out})[e] == s.storages[k][e];
        }
      }
    }
  }

  /** Between any two points of the loop the marker table only grows and validity is kept. */
  lemma {:induction false} RecordsExtendFrom<D, C, E>(s: State<C>, items: seq<Item<D>>,
                                                      convs: seq<Converter<D, C, E>>, i: nat, k: nat)
    requires |convs| == |s.storages| && i <= k <= |items|
    ensures var a := RunRecords(s, items, RecordStep(convs), i).state;
            var b := RunRecords(s, items, RecordStep(convs), k).state;
      Extends(a, b) && (Valid(a) ==> Valid(b))
  {
    var step := RecordStep(convs);
    var a := RunRecords(s, items, step, i).state;
    RecordsExtend(s, items, convs, i);
    var inv := (x: State<C>) => |x.storages| == |s.storages| && Extends(a, x) && (Valid(a) ==> Valid(x));
    forall x: State<C>, q | i <= q < k && inv(x)
      ensures inv(step(x, items[q]).state)
    {
      RecordExtends(x, items[q], convs);
    }
    RunKeeps(s, items, step, inv, i, k);
  }

  /** A record that loads was decoded with one slot per storage, and is loaded into the
      entity its marker names: afterwards the marker still names the entity `GetOrCreate`
      answered. */
  lemma RecordMapsMarker<D, C, E>(s: State<C>, item: Item<D>, convs: seq<Converter<D, C, E>>)
    requires LoadRecord(s, item, convs).out == Pass
    ensures item.Entry? && Shaped(s, item.record.components, convs)
    ensures var m := item.record.marker;
            var t := LoadRecord(s, item, convs).state;
      m in t.allocator && t.allocator[m] == GetOrCreate(s, m).out
  {
    var g := GetOrCreate(s, item.record.marker);
    SlotsFrame(g.state, g.out, item.record.components, convs, |convs|);
  }

  /** Entries kept from `a` to `b` and from `b` to `c` are kept from `a` to `c`. */
  lemma EntriesKeptTrans<C>(a: State<C>, b: State<C>, c: State<C>, e: Entity)
    requires EntriesKept(a, b, e) && EntriesKept(b, c, e)
    ensures EntriesKept(a, c, e)
  {
  }

  /** Records `j .. n-1` that carry other markers than `m` leave the entries of the entity
      `m` names after record `j-1` alone. */
  lemma {:induction false} OtherRecordsKeep<D, C, E>(s: State<C>, items: seq<Item<D>>,
                                                     convs: seq<Converter<D, C, E>>, m: Marker, j: nat, n: nat)
    requires |convs| == |s.storages| && Valid(s) && j <= n <= |items|
    requires m in RunRecords(s, items, RecordStep(convs), j).state.allocator
    requires forall q :: j <= q < n && items[q].Entry? ==> items[q].record.marker != m
    ensures var a := RunRecords(s, items, RecordStep(convs), j).state;
      EntriesKept(a, RunRecords(s, items, RecordStep(convs), n).state, a.allocator[m])
  {
    var step := RecordStep(convs);
    var a := RunRecords(s, items, step, j).state;
    var e := a.allocator[m];
    RecordsExtend(s, items, convs, j);
    var inv := (x: State<C>) =>
      |x.storages| == |s.storages| && Valid(x) && m in x.allocator && x.allocator[m] == e
      && EntriesKept(a, x, e);
    forall x: State<C>, q | j <= q < n && inv(x)
      ensures inv(step(x, items[q]).state)
    {
      var y := LoadRecord(x, items[q], convs).state;
      RecordExtends(x, items[q], convs);
      RecordFrame(x, items[q], convs, m);
      EntriesKeptTrans(a, x, y, e);
    }
    RunKeeps(s, items, step, inv, j, n);
  }

  /** Forward references: suppose a conversion asked `ids` about marker `m` in state `s`, and
      `t` is any later state. If record `j` of a stream run from `t` carries marker `m` and
      loads, it is loaded into the very entity `ids` answered: each of its slots is in place
      on that entity, and no other entity's entries change. */
  lemma {:induction false} ForwardReference<D, C, E>(s: State<C>, m: Marker, t: State<C>, items: seq<Item<D>>,
                                                     convs: seq<Converter<D, C, E>>, j: nat)
    requires Extends(Ids(s, m).state, t) && |convs| == |t.storages|
    requires j < |items| && items[j].Entry? && items[j].record.marker == m
    requires RunRecords(t, items, RecordStep(convs), j + 1).out == Pass
    ensures var pre := RunRecords(t, items, RecordStep(convs), j).state;
            var post := RunRecords(t, items, RecordStep(convs), j + 1).state;
            var e := Ids(s, m).out.value;
            var comps := items[j].record.components;
      && GetOrCreate(pre, m) == Step(pre, e)
      && |comps| == |convs| == |pre.storages| == |post.storages|
      && (forall k :: 0 <= k < |convs| ==> SlotApplied(post, pre, e, comps, convs, k))
      && (forall k :: 0 <= k < |convs| ==> post.storages[k] - {e} == pre.storages[k] - {e})
  {
    var step := RecordStep(convs);
    RecordsExtend(t, items, convs, j);
    var pre := RunRecords(t, items, step, j).state;
    MappingIsStable(Ids(s, m).state, pre, m);
    LoadEntityReplaces(pre, Ids(s, m).out.value, items[j].record.components, convs);
  }

  /** A state property that record `i` establishes when it loads, and that the steps of
      records `i+1 .. j-1` keep, holds at point `j` of the loop, given that the loop gets past
      record `i` without error (records `0 .. p-1` load, for some `p > i`). */
  lemma {:induction false} KeepsAfter<D, C, X>(s: State<C>, items: seq<Item<D>>,
                                               step: (State<C>, Item<D>) -> Step<C, Outcome<X>>,
                                               inv: State<C> -> bool, i: nat, j: nat, p: nat)
    requires i < j <= |items| && i < p <= |items| && RunRecords(s, items, step, p).out == Pass
    requires var r := step(RunRecords(s, items, step, i).state, items[i]); r.out == Pass ==> inv(r.state)
    requires forall x: State<C>, q :: i < q < j && inv(x) ==> inv(step(x, items[q]).state)
    ensures inv(RunRecords(s, items, step, j).state)
  {
    PassesAt(s, items, step, i, p);
    RunKeeps(s, items, step, inv, i + 1, j);
  }

  /** The record at `j` is loaded into the entity its marker names then: the one that marker
      already named after record `i`, when record `i` carries it too. */
  lemma {:induction false} SameMarkerSameEntity<D, C, E>(s: State<C>, items: seq<Item<D>>,
                                                         convs: seq<Converter<D, C, E>>, i: nat, j: nat)
    requires |convs| == |s.storages| && i < j < |items|
    requires items[i].Entry? && items[j].Entry? && items[i].record.marker == items[j].record.marker
    requires RunRecords(s, items, RecordStep(convs), j).out == Pass
    ensures var m := items[j].record.marker;
            var pj := RunRecords(s, items, RecordStep(convs), j).state;
      && m in pj.allocator
      && pj.allocator[m] == GetOrCreate(RunRecords(s, items, RecordStep(convs), i).state, m).out
      && GetOrCreate(pj, m) == Step(pj, pj.allocator[m])
  {
    var step := RecordStep(convs);
    var m := items[j].record.marker;
    var pi := RunRecords(s, items, step, i).state;
    var e := GetOrCreate(pi, m).out;
    RecordsExtend(s, items, convs, i);
    if LoadRecord(pi, items[i], convs).out == Pass {
      RecordMapsMarker(pi, items[i], convs);
    }
    var inv := (x: State<C>) => |x.storages| == |convs| && m in x.allocator && x.allocator[m] == e;
    forall x: State<C>, q | i < q < j && inv(x)
      ensures inv(step(x, items[q]).state)
    {
      RecordExtends(x, items[q], convs);
    }
    KeepsAfter(s, items, step, inv, i, j, j);
  }

  /** Every slot of a record is in place on `e` in `t`, as loaded from state `s`. */
  ghost predicate RecordApplied<D, C, E>(t: State<C>, s: State<C>, e: Entity, comps: seq<Option<D>>,
                                         convs: seq<Converter<D, C, E>>)
  {
    && Shaped(s, comps, convs) && |t.storages| == |comps|
    && forall k :: 0 <= k < |comps| ==> SlotApplied(t, s, e, comps, convs, k)
  }

  /** A record's slots in place on `e` stay in place while `e`'s entries are kept. */
  lemma AppliedKept<D, C, E>(t: State<C>, u: State<C>, s: State<C>, e: Entity,
                             comps: seq<Option<D>>, convs: seq<Converter<D, C, E>>)
    requires RecordApplied(t, s, e, comps, convs) && EntriesKept(t, u, e)
    ensures RecordApplied(u, s, e, comps, convs)
  {
    forall k | 0 <= k < |comps|
      ensures SlotApplied(u, s, e, comps, convs, k)
    {
      assert SlotApplied(t, s, e, comps, convs, k);
    }
  }

  /** In a valid state, a record that loads is loaded into the entity `GetOrCreate` answers
      for its marker, whether that marker was mapped or not: afterwards the marker names that
      entity, the state is valid, and every slot is in place on it. */
  lemma RecordLoadsInto<D, C, E>(s: State<C>, item: Item<D>, convs: seq<Converter<D, C, E>>)
    requires Valid(s) && |convs| == |s.storages| && item.Entry?
    ensures var m := item.record.marker;
            var g := GetOrCreate(s, m);
            var t := LoadRecord(s, item, convs);
      t.out == Pass ==>
        && Valid(t.state) && m in t.state.allocator && t.state.allocator[m] == g.out
        && RecordApplied(t.state, g.state, g.out, item.record.components, convs)
  {
    RecordExtends(s, item, convs);
    if LoadRecord(s, item, convs).out == Pass {
      var g := GetOrCreate(s, item.record.marker);
      RecordMapsMarker(s, item, convs);
      LoadEntityReplaces(g.state, g.out, item.record.components, convs);
    }
  }

  /** A record that loads is loaded into the entity `GetOrCreate` answers for its marker,
      fresh or not, and its slots stay in place on that entity through any further records
      that carry other markers. */
  lemma {:induction false} RecordWins<D, C, E>(s: State<C>, items: seq<Item<D>>,
                                               convs: seq<Converter<D, C, E>>, j: nat, n: nat)
    requires |convs| == |s.storages| && Valid(s) && j < n <= |items| && items[j].Entry?
    requires forall q :: j < q < n && items[q].Entry? ==> items[q].record.marker != items[j].record.marker
    requires RunRecords(s, items, RecordStep(convs), j + 1).out == Pass
    ensures var m := items[j].record.marker;
            var g := GetOrCreate(RunRecords(s, items, RecordStep(convs), j).state, m);
            var fin := RunRecords(s, items, RecordStep(convs), n).state;
            var comps := items[j].record.components;
      && m in fin.allocator && fin.allocator[m] == g.out
      && |comps| == |convs| == |g.state.storages| == |fin.storages|
      && forall k :: 0 <= k < |convs| ==> SlotApplied(fin, g.state, g.out, comps, convs, k)
  {
    var step := RecordStep(convs);
    var m := items[j].record.marker;
    PassesAt(s, items, step, j, j + 1);
    var pj := RunRecords(s, items, step, j).state;
    var g := GetOrCreate(pj, m);
    RecordsExtend(s, items, convs, j);
    RecordLoadsInto(pj, items[j], convs);
    OtherRecordsKeep(s, items, convs, m, j + 1, n);
    RecordsExtendFrom(s, items, convs, j + 1, n);
    AppliedKept(RunRecords(s, items, step, j + 1).state, RunRecords(s, items, step, n).state,
                g.state, g.out, items[j].record.components, convs);
  }

  /** Two records with the same marker in one stream, at `i < j`, load into the same entity,
      and the later record's slots win, slot by slot: after any further records that carry
      other markers, the entity holds exactly what record `j` says, whatever record `i` or
      the records between said. */
  lemma {:induction false} LaterRecordWins<D, C, E>(s: State<C>, items: seq<Item<D>>, convs: seq<Converter<D, C, E>>,
                                                    i: nat, j: nat, n: nat)
    requires |convs| == |s.storages| && Valid(s) && i < j < n <= |items|
    requires items[i].Entry? && items[j].Entry? && items[i].record.marker == items[j].record.marker
    requires forall q :: j < q < n && items[q].Entry? ==> items[q].record.marker != items[j].record.marker
    requires RunRecords(s, items, RecordStep(convs), j + 1).out == Pass
    ensures var m := items[j].record.marker;
            var pj := RunRecords(s, items, RecordStep(convs), j).state;
            var fin := RunRecords(s, items, RecordStep(convs), n).state;
            var e := GetOrCreate(RunRecords(s, items, RecordStep(convs), i).state, m).out;
            var comps := items[j].record.components;
      && GetOrCreate(pj, m) == Step(pj, e)
      && |comps| == |convs| == |pj.storages| == |fin.storages|
      && forall k :: 0 <= k < |convs| ==> SlotApplied(fin, pj, e, comps, convs, k)
  {
    var step := RecordStep(convs);
    PassesAt(s, items, step, j, j + 1);
    SameMarkerSameEntity(s, items, convs, i, j);
    RecordWins(s, items, convs, j, n);
  }

  /** A question slot `k` of a record puts to `ids`: its `p`-th reference and the entity
      `ids` answers for it. */
  datatype Query = Query(marker: Marker, answer: Option<Entity>)

  /** What slot `k` of `item` asks `ids` as its `p`-th reference when the record is loaded
      from `s`, and the answer it gets once the slots before it have loaded; `None` when the
      record is corrupt or misshapen, or has no such slot, payload or reference. */
  ghost function SlotQuery<D, C, E>(s: State<C>, item: Item<D>, convs: seq<Converter<D, C, E>>,
                                    k: nat, p: nat): (r: Option<Query>)
    ensures r.Some? ==> r.value.answer.Some?
  {
    if item.Corrupt? || !Shaped(s, item.record.components, convs) || k >= |convs| then None
    else
      var comps := item.record.components;
      if comps[k].None? || p >= |convs[k].refs(comps[k].value)| then None
      else
        var refs := convs[k].refs(comps[k].value);
        var g := GetOrCreate(s, item.record.marker);
        Some(Query(refs[p], Resolve(LoadSlots(g.state, g.out, comps, convs, k).state, refs).out[p]))
  }

  /** In a record that loads, every answer `ids` gave one of its slots still holds once the
      record is done: the marker asked about names the entity answered. */
  lemma RecordRef<D, C, E>(s: State<C>, item: Item<D>, convs: seq<Converter<D, C, E>>, k: nat, p: nat)
    requires LoadRecord(s, item, convs).out == Pass && SlotQuery(s, item, convs, k, p).Some?
    ensures var q := SlotQuery(s, item, convs, k, p).value;
            var t := LoadRecord(s, item, convs).state;
      q.marker in t.allocator && q.answer == Some(t.allocator[q.marker])
  {
    var comps := item.record.components;
    var g := GetOrCreate(s, item.record.marker);
    if LoadSlots(g.state, g.out, comps, convs, k).out.Fail? {
      FailureSticks(g.state, g.out, comps, convs, k, |comps|);
      assert false;
    }
    SlotAnswerStays(g.state, g.out, comps, convs, k, p);
  }

  /** A forward reference inside one stream: when slot `k` of record `i` asks `ids` about a
      marker `m` that a later record `j` carries, and `ids` answers `a`, record `j` then finds
      `a` for its marker instead of creating another entity. */
  lemma {:induction false} StreamForwardReference<D, C, E>(s: State<C>, items: seq<Item<D>>,
                                                           convs: seq<Converter<D, C, E>>,
                                                           i: nat, j: nat, k: nat, p: nat,
                                                           m: Marker, a: Entity)
    requires |convs| == |s.storages| && i < j < |items|
    requires SlotQuery(RunRecords(s, items, RecordStep(convs), i).state, items[i], convs, k, p)
             == Some(Query(m, Some(a)))
    requires items[j].Entry? && items[j].record.marker == m
    requires RunRecords(s, items, RecordStep(convs), j).out == Pass
    ensures var pj := RunRecords(s, items, RecordStep(convs), j).state;
      GetOrCreate(pj, m) == Step(pj, a)
  {
    var step := RecordStep(convs);
    var pi := RunRecords(s, items, step, i).state;
    RecordsExtend(s, items, convs, i);
    if LoadRecord(pi, items[i], convs).out == Pass {
      RecordRef(pi, items[i], convs, k, p);
    }
    var inv := (x: State<C>) => |x.storages| == |convs| && m in x.allocator && x.allocator[m] == a;
    forall x: State<C>, n | i < n < j && inv(x)
      ensures inv(step(x, items[n]).state)
    {
      RecordExtends(x, items[n], convs);
    }
    KeepsAfter(s, items, step, inv, i, j, j);
  }
}
