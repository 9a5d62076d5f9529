/** A worked load: a record that refers to a marker whose own record comes later. */
module Scenario {
  import opened Wrappers
  import opened Identity
  import opened Load

  /** A component whose payload is a list of markers and which stores the entities `ids`
      gives for them. */
  function Links(): Converter<seq<Marker>, seq<Option<Entity>>, bool> {
    Converter(d => d, (d, ids) => Ok(ids))
  }

  /** Loading `[{marker: 2, links: [1]}, {marker: 1, links: []}]` into an empty world
      creates two entities; the first record's link names the entity that the second
      record, read afterwards, is loaded into. */
  lemma ForwardLinkResolves()
    ensures
      var empty := State(map[], 0, map[], [map[]]);
      var items := [Entry(Record(2, [Some([1])])), Entry(Record(1, [Some([])]))];
      var r := LoadStream(empty, items, [Links()]);
      && r.out == Pass
      && r.state.allocator == map[2 := 0, 1 := 1]
      && r.state.markers == map[0 := 2, 1 := 1]
      && r.state.next == 2
      && r.state.storages == [map[0 := [Some(1)], 1 := []]]
  {
    var empty := State(map[], 0, map[], [map[]]);
    var items := [Entry(Record(2, [Some([1])])), Entry(Record(1, [Some([])]))];
    // The first record: marker 2 gets entity 0, and its link to marker 1 creates entity 1.
    var s1 := State(map[2 := 0], 1, map[0 := 2], [map[]]);
    assert GetOrCreate(empty, 2) == Step(s1, 0);
    var s2 := State(map[2 := 0, 1 := 1], 2, map[0 := 2, 1 := 1], [map[]]);
    assert Resolve(s1, [1]) == Step(s2, [Some(1)]) by {
      var one: seq<Marker> := [1];
      assert one[..0] == [];
      assert Resolve(s1, one[..0]) == Step(s1, []);
      assert GetOrCreate(s1, 1) == Step(s2, 1);
      assert Ids(s1, 1) == Step(s2, Some(1));
      var none: seq<Option<Entity>> := [];
      assert none + [Some(1)] == [Some(1)];
      assert Resolve(s1, one) == Step(s2, none + [Some(1)]);
    }
    assert Convert(s1, Links(), [1]) == Step(s2, Ok([Some(1)]));
    var s3 := State(map[2 := 0, 1 := 1], 2, map[0 := 2, 1 := 1], [map[0 := [Some(1)]]]);
    assert RunRecords(empty, items, RecordStep([Links()]), 1) == Step(s3, Pass);
    // The second record: marker 1 already names entity 1, which gets an empty link list.
    assert GetOrCreate(s3, 1) == Step(s3, 1);
    assert Convert(s3, Links(), []) == Step(s3, Ok([]));
    assert RunRecords(empty, items, RecordStep([Links()]), 2)
        == Step(State(map[2 := 0, 1 := 1], 2, map[0 := 2, 1 := 1], [map[0 := [Some(1)], 1 := []]]), Pass);
  }
}
