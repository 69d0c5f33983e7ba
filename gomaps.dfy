/** Copying a Go map entry by entry, in the map's unspecified order. */
module GoMaps {

  /** `for k, v := range m { tmp[k] = v }` into a fresh map: the copy has
      the same entries whatever order the keys come in. */
  method CopyMap<V>(m: map<string, V>) returns (tmp: map<string, V>)
    ensures tmp == m
  {
    tmp := map[];
    var todo := m.Keys;
    while todo != {}
      invariant todo <= m.Keys
      invariant tmp.Keys !! todo && tmp.Keys + todo == m.Keys
      invariant forall k :: k in tmp ==> tmp[k] == m[k]
      decreases todo
    {
      var k :| k in todo;
      tmp := tmp[k := m[k]];
      todo := todo - {k};
    }
  }
}
