/** Name-to-id resolution of YNAB budgets and accounts (`get_ynab_budget_id_mapping`,
    `get_ynab_account_id_mapping` and the lookups in `upload_revolut_transactions_to_ynab`). */
module NameResolver {
  import opened Wrappers

  /** One budget or account as the YNAB API lists it. */
  datatype NamedId = NamedId(name: string, id: string)

  /** A Python dictionary from names to ids: `names` is its key order, `ids` its content. */
  datatype IdMapping = IdMapping(names: seq<string>, ids: map<string, string>)

  /** The key order lists each key of the dictionary exactly once. */
  ghost predicate WellFormed(d: IdMapping)
  {
    && (forall i, j :: 0 <= i < j < |d.names| ==> d.names[i] != d.names[j])
    && (forall n :: n in d.names <==> n in d.ids)
  }

  /** Some entry of `entries` bears the name `name`. */
  predicate Listed(entries: seq<NamedId>, name: string)
  {
    exists i :: 0 <= i < |entries| && entries[i].name == name
  }

  /** `name` is listed with `id` by the last entry bearing that name. */
  predicate LastListedAs(entries: seq<NamedId>, name: string, id: string)
  {
    exists i :: 0 <= i < |entries| && entries[i] == NamedId(name, id) &&
      forall j :: i < j < |entries| ==> entries[j].name != name
  }

  /** Some entry named `x` comes before every entry named `y`. */
  predicate ListedBefore(entries: seq<NamedId>, x: string, y: string)
  {
    exists i :: 0 <= i < |entries| && entries[i].name == x &&
      forall j :: 0 <= j <= i ==> entries[j].name != y
  }

  /** `d[name] = id`: a new key goes to the end of the key order, an existing one keeps its place. */
  function Insert(d: IdMapping, name: string, id: string): (r: IdMapping)
  {
    IdMapping(if name in d.ids then d.names else d.names + [name], d.ids[name := id])
  }

  /** `{e.name: e.id for e in entries}`. */
  function BuildMapping(entries: seq<NamedId>): (d: IdMapping)
    ensures WellFormed(d)
    ensures forall n :: n in d.ids <==> Listed(entries, n)
    decreases |entries|
  {
    if entries == [] then IdMapping([], map[])
    else
      var init := entries[..|entries| - 1];
      var last := entries[|entries| - 1];
      var d := BuildMapping(init);
      assert forall i :: 0 <= i < |init| ==> init[i] == entries[i];
      Insert(d, last.name, last.id)
  }

  /** The last duplicate of a name wins: its id is the one the dictionary holds. */
  lemma {:induction false} MappingLastWins(entries: seq<NamedId>, i: nat)
    requires i < |entries|
    requires forall j :: i < j < |entries| ==> entries[j].name != entries[i].name
    ensures entries[i].name in BuildMapping(entries).ids
    ensures BuildMapping(entries).ids[entries[i].name] == entries[i].id
    decreases |entries|
  {
    if i < |entries| - 1 {
      var init := entries[..|entries| - 1];
      MappingLastWins(init, i);
    }
  }

  lemma LastListedExtended(init: seq<NamedId>, e: NamedId, name: string, id: string)
    requires LastListedAs(init, name, id) && e.name != name
    ensures LastListedAs(init + [e], name, id)
  {
    var i :| 0 <= i < |init| && init[i] == NamedId(name, id) &&
      forall j :: i < j < |init| ==> init[j].name != name;
    assert (init + [e])[i] == init[i];
    forall j | i < j < |init| + 1 ensures (init + [e])[j].name != name {
      if j < |init| {
        assert (init + [e])[j] == init[j];
      }
    }
  }

  /** Every value of the dictionary is the id of the last entry bearing its key. */
  lemma {:induction false} MappingValueIsLast(entries: seq<NamedId>, name: string)
    requires name in BuildMapping(entries).ids
    ensures LastListedAs(entries, name, BuildMapping(entries).ids[name])
    decreases |entries|
  {
    var n := |entries| - 1;
    var init, last := entries[..n], entries[n];
    assert init + [last] == entries;
    var d0 := BuildMapping(init);
    assert BuildMapping(entries) == Insert(d0, last.name, last.id);
    if last.name != name {
      MappingValueIsLast(init, name);
      LastListedExtended(init, last, name, d0.ids[name]);
    } else {
      assert entries[n] == NamedId(name, BuildMapping(entries).ids[name]);
    }
  }

  /** The names of `ns` are in the order in which they first appear in `entries`. */
  predicate InFirstAppearanceOrder(entries: seq<NamedId>, ns: seq<string>)
  {
    forall a, b :: 0 <= a < b < |ns| ==> ListedBefore(entries, ns[a], ns[b])
  }

  lemma ListedBeforeExtended(init: seq<NamedId>, e: NamedId, x: string, y: string)
    requires ListedBefore(init, x, y)
    ensures ListedBefore(init + [e], x, y)
  {
    var i :| 0 <= i < |init| && init[i].name == x && forall j :: 0 <= j <= i ==> init[j].name != y;
    assert (init + [e])[i] == init[i];
    forall j | 0 <= j <= i ensures (init + [e])[j].name != y {
      assert (init + [e])[j] == init[j];
    }
  }

  lemma ListedBeforeNewcomer(init: seq<NamedId>, e: NamedId, x: string)
    requires Listed(init, x) && !Listed(init, e.name)
    ensures ListedBefore(init + [e], x, e.name)
  {
    var i :| 0 <= i < |init| && init[i].name == x;
    assert (init + [e])[i] == init[i];
    forall j | 0 <= j <= i ensures (init + [e])[j].name != e.name {
      assert (init + [e])[j] == init[j];
    }
  }

  /** One insertion keeps the key order in order of first appearance. */
  lemma KeyOrderStep(init: seq<NamedId>, d: IdMapping, e: NamedId)
    requires WellFormed(d) && (forall n :: n in d.ids <==> Listed(init, n))
    requires InFirstAppearanceOrder(init, d.names)
    ensures InFirstAppearanceOrder(init + [e], Insert(d, e.name, e.id).names)
  {
    var ns := Insert(d, e.name, e.id).names;
    forall a, b | 0 <= a < b < |ns| ensures ListedBefore(init + [e], ns[a], ns[b]) {
      if b < |d.names| {
        assert ns[a] == d.names[a] && ns[b] == d.names[b];
        ListedBeforeExtended(init, e, ns[a], ns[b]);
      } else {
        assert ns[a] == d.names[a] && ns[b] == e.name && e.name !in d.ids;
        ListedBeforeNewcomer(init, e, ns[a]);
      }
    }
  }

  /** The key order is the order in which the names first appear in the listing. */
  lemma {:induction false} MappingKeyOrder(entries: seq<NamedId>)
    ensures InFirstAppearanceOrder(entries, BuildMapping(entries).names)
    decreases |entries|
  {
    if entries != [] {
      var n := |entries| - 1;
      var init := entries[..n];
      assert init + [entries[n]] == entries;
      MappingKeyOrder(init);
      KeyOrderStep(init, BuildMapping(init), entries[n]);
    }
  }

  /** There is one last entry bearing a name, so it determines a single id. */
  lemma LastListedUnique(entries: seq<NamedId>, name: string, id1: string, id2: string)
    requires LastListedAs(entries, name, id1) && LastListedAs(entries, name, id2)
    ensures id1 == id2
  {
  }

  /** `if name not in mapping: raise ...` then `mapping[name]`: the id of the last entry so
      named, or, when no entry bears the name, every available name in dictionary order. */
  function Resolve(entries: seq<NamedId>, name: string): (r: Result<string, seq<string>>)
    ensures r.Success? <==> Listed(entries, name)
    ensures r.Success? ==> LastListedAs(entries, name, r.value)
    ensures r.Failure? ==> r.error == BuildMapping(entries).names
  {
    var d := BuildMapping(entries);
    if name !in d.ids then Failure(d.names)
    else
      MappingValueIsLast(entries, name);
      Success(d.ids[name])
  }

  /** The available names reported on failure: each listed name exactly once, by first appearance. */
  lemma AvailableNames(entries: seq<NamedId>, name: string)
    requires Resolve(entries, name).Failure?
    ensures var ns := Resolve(entries, name).error;
            && (forall n :: n in ns <==> Listed(entries, n))
            && (forall a, b :: 0 <= a < b < |ns| ==> ns[a] != ns[b])
            && InFirstAppearanceOrder(entries, ns)
            && name !in ns
  {
    MappingKeyOrder(entries);
  }

  /** A listing of two distinct names becomes a dictionary with both, in listing order. */
  lemma BuildMappingOfTwo(x: NamedId, y: NamedId)
    requires x.name != y.name
    ensures BuildMapping([x, y]) == IdMapping([x.name, y.name], map[x.name := x.id, y.name := y.id])
  {
    var es := [x, y];
    assert es[..1] == [x] && [x][..0] == [];
    assert BuildMapping([x]) == IdMapping([x.name], map[x.name := x.id]);
  }

  /** Looking up a name absent from `Personal` and `Shared` reports both, in listing order. */
  lemma ResolveScenario()
    ensures Resolve([NamedId("Personal", "b1"), NamedId("Shared", "b2")], "Household")
            == Failure(["Personal", "Shared"])
  {
    BuildMappingOfTwo(NamedId("Personal", "b1"), NamedId("Shared", "b2"));
  }
}
