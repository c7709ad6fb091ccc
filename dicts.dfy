/** Python's insertion-ordered `dict` with string keys: the keys in the order
    they were first inserted, and the key-to-value map. */
module Dicts {

  datatype Dict<V> = Dict(order: seq<string>, entries: map<string, V>)

  /** Every dict Python can build: keys listed once each, exactly the keys of the map. */
  ghost predicate Valid<V>(d: Dict<V>) {
    && (forall i, j :: 0 <= i < j < |d.order| ==> d.order[i] != d.order[j])
    && (forall k :: k in d.entries <==> k in d.order)
  }

  function Empty<V>(): (r: Dict<V>)
    ensures Valid(r) && r.entries == map[]
  {
    Dict([], map[])
  }

  /** `d[k] = v`: a new key goes to the end, an existing key keeps its place. */
  function Assign<V>(d: Dict<V>, k: string, v: V): (r: Dict<V>)
    ensures Valid(d) ==> Valid(r)
    ensures r.entries == d.entries[k := v]
    ensures r.order == if k in d.entries then d.order else d.order + [k]
    ensures d.order <= r.order
  {
    Dict(if k in d.entries then d.order else d.order + [k], d.entries[k := v])
  }

  /** `{**a, **(keys ks of b)}`: the entries of `b` named by `ks`, in that order, assigned into `a`. */
  function AssignAll<V>(a: Dict<V>, ks: seq<string>, b: map<string, V>): Dict<V>
    requires forall k :: k in ks ==> k in b
  {
    if ks == [] then a else Assign(AssignAll(a, ks[..|ks| - 1], b), ks[|ks| - 1], b[ks[|ks| - 1]])
  }

  /** `{**a, **b}`. */
  function Merge<V>(a: Dict<V>, b: Dict<V>): Dict<V>
    requires Valid(b)
  {
    AssignAll(a, b.order, b.entries)
  }

  /** Repeated assignment keeps a dict well formed and its old keys first. */
  lemma {:induction false} AssignAllValid<V>(a: Dict<V>, ks: seq<string>, b: map<string, V>)
    requires Valid(a)
    requires forall k :: k in ks ==> k in b
    ensures Valid(AssignAll(a, ks, b))
    ensures a.order <= AssignAll(a, ks, b).order
  {
    if ks != [] {
      AssignAllValid(a, ks[..|ks| - 1], b);
    }
  }

  /** Repeated assignment holds the old keys and the assigned ones; an
      assigned key has its new value and every other key its old one. */
  lemma {:induction false} AssignAllEntries<V>(a: Dict<V>, ks: seq<string>, b: map<string, V>)
    requires forall k :: k in ks ==> k in b
    ensures forall k :: k in AssignAll(a, ks, b).entries <==> k in a.entries || k in ks
    ensures forall k :: k in ks ==> AssignAll(a, ks, b).entries[k] == b[k]
    ensures forall k :: k in a.entries && k !in ks ==> AssignAll(a, ks, b).entries[k] == a.entries[k]
  {
    if ks != [] {
      var p := ks[..|ks| - 1];
      AssignAllEntries(a, p, b);
      assert forall k :: k in ks <==> k in p || k == ks[|ks| - 1];
    }
  }

  lemma AssignAllSpec<V>(a: Dict<V>, ks: seq<string>, b: map<string, V>)
    requires Valid(a)
    requires forall k :: k in ks ==> k in b
    ensures Valid(AssignAll(a, ks, b))
    ensures a.order <= AssignAll(a, ks, b).order
    ensures AssignAll(a, ks, b).entries.Keys == a.entries.Keys + set k | k in ks
    ensures forall k :: k in ks ==> AssignAll(a, ks, b).entries[k] == b[k]
    ensures forall k :: k in a.entries && k !in ks ==> AssignAll(a, ks, b).entries[k] == a.entries[k]
  {
    AssignAllValid(a, ks, b);
    AssignAllEntries(a, ks, b);
  }

  /** The entries of `{**a, **b}` are those of `a` overridden by those of `b`. */
  lemma MergeEntries<V>(a: Dict<V>, b: Dict<V>)
    requires Valid(b)
    ensures Merge(a, b).entries == a.entries + b.entries
  {
    AssignAllEntries(a, b.order, b.entries);
    var m := Merge(a, b).entries;
    var u := a.entries + b.entries;
    assert m.Keys == u.Keys;
    forall k | k in m ensures m[k] == u[k] {
      assert k in b.entries <==> k in b.order;
    }
  }

  /** `{**a, **b}` holds every key of both; on a shared key the value of `b` wins;
      the keys of `a` come first, in their order. */
  lemma MergeSpec<V>(a: Dict<V>, b: Dict<V>)
    requires Valid(a) && Valid(b)
    ensures Valid(Merge(a, b))
    ensures Merge(a, b).entries == a.entries + b.entries
    ensures a.order <= Merge(a, b).order
  {
    AssignAllValid(a, b.order, b.entries);
    MergeEntries(a, b);
  }
}
