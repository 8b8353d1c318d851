/** Adding to a table one row at a time, in whatever order a map yields its entries. */
module RowMaps {

  lemma UpdateRight<T>(a: map<nat, T>, b: map<nat, T>, k: nat, v: T)
    ensures a + b[k := v] == (a + b)[k := v]
  {}

  /** Taking one more entry out of those still to do. */
  lemma OneMore<T>(m: map<nat, T>, rest: set<nat>, k: nat)
    requires k in m && k in rest
    ensures m - (rest - {k}) == (m - rest)[k := m[k]]
    ensures k !in m - rest
  {}
}
