/** The loops every store and cache runs over its map: listing the held
    records (`new ArrayList<>(map.values())`), filtering them (a stream
    `filter`), and copying them field by field (the builder copies of the
    database stand-ins). The map's iteration order is unspecified, so the
    loops take the keys in any order. */
module Traversal {
  import opened Model

  /** Every record held in `m`, each exactly once. */
  method ValuesOf<D>(m: map<nat, Entity<D>>) returns (r: seq<Entity<D>>)
    requires KeyedById(m)
    ensures |r| == |m|
    ensures Distinct(r)
    ensures forall i :: 0 <= i < |r| ==> r[i].id.Some? && r[i].id.value in m && m[r[i].id.value] == r[i]
    ensures forall k :: k in m ==> m[k] in r
  {
    var rest := m.Keys;
    r := [];
    while rest != {}
      invariant rest <= m.Keys
      invariant |r| + |rest| == |m.Keys|
      invariant Distinct(r)
      invariant forall i :: 0 <= i < |r| ==> r[i].id.Some? && r[i].id.value in m.Keys - rest && m[r[i].id.value] == r[i]
      invariant forall k :: k in m.Keys - rest ==> m[k] in r
      decreases rest
    {
      var k :| k in rest;
      r := r + [m[k]];
      rest := rest - {k};
    }
  }

  /** The records held in `m` whose fields satisfy `p`, each exactly once. */
  method Select<D>(m: map<nat, Entity<D>>, p: D -> bool) returns (r: seq<Entity<D>>)
    requires KeyedById(m)
    ensures Distinct(r)
    ensures forall i :: 0 <= i < |r| ==> r[i].id.Some? && r[i].id.value in m && m[r[i].id.value] == r[i] && p(r[i].data)
    ensures forall k :: k in m && p(m[k].data) ==> m[k] in r
  {
    var rest := m.Keys;
    r := [];
    while rest != {}
      invariant rest <= m.Keys
      invariant Distinct(r)
      invariant forall i :: 0 <= i < |r| ==> r[i].id.Some? && r[i].id.value in m.Keys - rest && m[r[i].id.value] == r[i] && p(r[i].data)
      invariant forall k :: k in m.Keys - rest && p(m[k].data) ==> m[k] in r
      decreases rest
    {
      var k :| k in rest;
      if p(m[k].data) {
        r := r + [m[k]];
      }
      rest := rest - {k};
    }
  }

  /** A new record with the same id and fields for every record of `xs`, in order. */
  method CopyAll<D>(xs: seq<Entity<D>>) returns (r: seq<Entity<D>>)
    ensures |r| == |xs|
    ensures Distinct(r)
    ensures forall i :: 0 <= i < |r| ==> fresh(r[i]) && r[i].id == xs[i].id && r[i].data == xs[i].data
  {
    r := [];
    for i := 0 to |xs|
      invariant |r| == i
      invariant Distinct(r)
      invariant forall j :: 0 <= j < i ==> fresh(r[j]) && r[j].id == xs[j].id && r[j].data == xs[j].data
    {
      var c := new Entity(xs[i].id, xs[i].data);
      r := r + [c];
    }
  }
}
