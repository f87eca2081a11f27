/**
 * The immutable map builder used for the score table: entries are put one
 * after another and build() refuses a key that was put twice (the Java builder
 * throws IllegalArgumentException). A refused build is None here.
 */
module ImmutableMap {
  import opened Wrappers

  /** No key occurs in two entries. */
  predicate DistinctKeys<K(==), V>(entries: seq<(K, V)>)
  {
    forall i, j :: 0 <= i < j < |entries| ==> entries[i].0 != entries[j].0
  }

  function Build<K(==), V>(entries: seq<(K, V)>): (r: Option<map<K, V>>)
    ensures r.Some? <==> DistinctKeys(entries)
    ensures r.Some? ==> r.value.Keys == set i | 0 <= i < |entries| :: entries[i].0
    ensures r.Some? ==> forall i :: 0 <= i < |entries| ==> r.value[entries[i].0] == entries[i].1
  {
    if entries == [] then Some(map[])
    else
      var init, last := entries[..|entries| - 1], entries[|entries| - 1];
      match Build(init)
      case None =>
        assert !DistinctKeys(init);
        None
      case Some(m) =>
        if last.0 in m then
          var i :| 0 <= i < |init| && init[i].0 == last.0;
          assert entries[i].0 == entries[|entries| - 1].0;
          None
        else
          assert forall i :: 0 <= i < |init| ==> init[i].0 != last.0;
          Some(m[last.0 := last.1])
  }
}
