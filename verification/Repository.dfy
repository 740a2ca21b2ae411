/** The code of the cluster store (internal/cluster/repository.go): each operation works on a copy of the data
    and replaces it only when the disk took the write. */
module Repository {
  import opened Order
  import opened Text
  import opened Customers
  import opened CustomerGroups

  method CustomerInUse(clusters: seq<Cluster>, key: string) returns (found: bool)
    ensures found <==> InUse(clusters, key)
  {
    for i := 0 to |clusters|
      invariant forall k :: 0 <= k < i ==> CustomerKey(clusters[k]) != key
    {
      if CustomerKey(clusters[i]) == key { return true; }
    }
    return false;
  }

  method PruneCustomers(d: Data) returns (r: Data)
    ensures r == Pruned(d)
  {
    if |d.customers| == 0 { return d; }
    ghost var keep := (r: Choice) => Needed(d.clusters, r.key);
    var records: seq<Choice> := [];
    for i := 0 to |d.customers|
      invariant records == Select(d.customers[..i], keep)
    {
      var record := d.customers[i];
      SelectStep(d.customers, keep, i);
      var used := CustomerInUse(d.clusters, record.key);
      if record.key == ARCHIVED_KEY || used { records := records + [record]; }
    }
    assert d.customers[..|d.customers|] == d.customers;
    r := d.(customers := records);
  }

  method IndexOf(clusters: seq<Cluster>, id: string) returns (at: nat)
    ensures at == Find(clusters, id)
  {
    at := 0;
    while at < |clusters|
      invariant at <= |clusters| && forall k :: 0 <= k < at ==> clusters[k].id != id
    {
      if clusters[at].id == id { break; }
      at := at + 1;
    }
  }

  class Store {
    var data: Data

    constructor ()
      ensures data == EMPTY
    {
      data := EMPTY;
    }

    method Save(next: Data, saved: bool) returns (ok: bool)
      modifies this
      ensures ok == saved && data == if saved then next else old(data)
    {
      if saved { data := next; }
      ok := saved;
    }

    method Create(input: Input, id: string, now: nat, saved: bool) returns (ok: bool)
      modifies this
      ensures data == Next(old(data), Operation.Create(input, id, now), saved)
      ensures ok <==> saved && Created(old(data), input, id, now).Some?
    {
      if !ValidInput(input) { return false; }
      var record := ToRecord(input, id, now, now);
      for i := 0 to |data.clusters|
        invariant data == old(data)
        invariant forall k :: 0 <= k < i ==> !SameContext(data.clusters[k], record)
      {
        if SameContext(data.clusters[i], record) { return false; }
      }
      ok := Save(data.(clusters := data.clusters + [record]), saved);
    }

    method Update(id: string, input: Input, now: nat, saved: bool) returns (ok: bool)
      modifies this
      ensures data == Next(old(data), Operation.Update(id, input, now), saved)
      ensures ok <==> saved && Updated(old(data), id, input, now).Some?
    {
      if !ValidInput(input) { return false; }
      var at := IndexOf(data.clusters, id);
      if at == |data.clusters| { return false; }
      var existing := data.clusters[at];
      var record := ToRecord(input, existing.id, existing.createdAt, now).(archived := existing.archived);
      if record.labels.None? { record := record.(labels := existing.labels); }
      var next := PruneCustomers(data.(clusters := data.clusters[at := record]));
      ok := Save(next, saved);
    }

    method Delete(id: string, saved: bool) returns (ok: bool)
      modifies this
      ensures data == Next(old(data), Operation.Delete(id), saved)
      ensures ok <==> saved && Deleted(old(data), id).Some?
    {
      ghost var keep := (c: Cluster) => c.id != id;
      var clusters: seq<Cluster> := [];
      var found := false;
      for i := 0 to |data.clusters|
        invariant data == old(data) && clusters == Select(data.clusters[..i], keep)
        invariant found <==> Find(data.clusters, id) < i
      {
        SelectStep(data.clusters, keep, i);
        if data.clusters[i].id == id {
          found := true;
          continue;
        }
        clusters := clusters + [data.clusters[i]];
      }
      if !found { return false; }
      assert data.clusters[..|data.clusters|] == data.clusters;
      var next := PruneCustomers(data.(clusters := clusters));
      ok := Save(next, saved);
    }

    method SetArchived(id: string, archived: bool, now: nat, saved: bool) returns (ok: bool)
      modifies this
      ensures data == Next(old(data), Operation.SetArchived(id, archived, now), saved)
      ensures ok <==> saved && Filed(old(data), id, archived, now).Some?
    {
      var at := IndexOf(data.clusters, id);
      if at == |data.clusters| { return false; }
      var record := data.clusters[at].(archived := archived);
      record := record.(updatedAt := now);
      var next := PruneCustomers(data.(clusters := data.clusters[at := record]));
      ok := Save(next, saved);
    }

    method SetGroupHidden(key: string, hidden: bool, saved: bool) returns (ok: bool)
      modifies this
      ensures data == Next(old(data), Operation.SetGroupHidden(key, hidden), saved)
      ensures ok <==> saved && Shown(old(data), key, hidden).Some?
    {
      var group := TrimSpace(key);
      if !CanHide(group) { return false; }
      var used := CustomerInUse(data.clusters, group);
      if group != ARCHIVED_KEY && !used { return false; }

      ghost var keep := (r: Choice) => r.key != group;
      var records: seq<Choice> := [];
      for i := 0 to |data.customers|
        invariant data == old(data) && records == Select(data.customers[..i], keep)
      {
        SelectStep(data.customers, keep, i);
        if data.customers[i].key != group { records := records + [data.customers[i]]; }
      }
      assert data.customers[..|data.customers|] == data.customers;
      if hidden != HiddenByDefault(group) { records := records + [Choice(group, hidden)]; }
      ok := Save(data.(customers := records), saved);
    }

    /** Groups before they are sorted: an index of where each key's group is, filled in one pass. */
    method Gather() returns (groups: seq<Group>)
      ensures groups == WithArchive(Gathered(Listed(data.clusters), data.customers), data.customers)
    {
      hide *;
      var cards := Listed(data.clusters);
      var at: map<string, nat> := map[];
      groups := [];
      NothingGathered(data.customers);
      assert cards[..0] == [];
      for i := 0 to |cards|
        invariant groups == Gathered(cards[..i], data.customers)
        invariant Indexes(at, groups)
      {
        var card := cards[i];
        GatheredStep(cards, i, data.customers);
        ghost var before := groups;
        IndexAfter(at, before, card, data.customers);
        PlacedByIndex(at, before, card, data.customers);
        if card.key !in at {
          at := at[card.key := |groups|];
          groups := groups + [Group(card.key, card.heading, HiddenFor(data.customers, card.key), [])];
        }
        var index := at[card.key];
        var ids := groups[index].ids + [card.id];
        assert index == |before| ==> ids == [card.id];
        groups := groups[index := groups[index].(ids := ids)];
        assert groups == Placed(before, card, data.customers);
      }
      assert cards[..|cards|] == cards;
      ArchiveByIndex(at, groups, data.customers);
      if ARCHIVED_KEY !in at {
        groups := groups + [Group(ARCHIVED_KEY, ARCHIVED_LABEL, HiddenFor(data.customers, ARCHIVED_KEY), [])];
      }
    }
  }

  /** The index of where each key's group is. */
  ghost predicate Indexes(at: map<string, nat>, groups: seq<Group>) {
    && (forall key :: key in at <==> At(groups, key) < |groups|)
    && (forall key :: key in at ==> at[key] == At(groups, key))
  }

  lemma NothingGathered(customers: seq<Choice>)
    ensures Gathered([], customers) == [] && Indexes(map[], [])
  {
  }

  lemma GatheredStep(cards: seq<Card>, i: nat, customers: seq<Choice>)
    requires i < |cards|
    ensures Gathered(cards[..i + 1], customers) == Placed(Gathered(cards[..i], customers), cards[i], customers)
  {
    assert cards[..i + 1][..i] == cards[..i];
  }

  lemma ArchiveByIndex(at: map<string, nat>, groups: seq<Group>, customers: seq<Choice>)
    requires Indexes(at, groups)
    ensures WithArchive(groups, customers) ==
      if ARCHIVED_KEY in at then groups
      else groups + [Group(ARCHIVED_KEY, ARCHIVED_LABEL, HiddenFor(customers, ARCHIVED_KEY), [])]
  {
  }

  lemma FirstIs(groups: seq<Group>, key: string, i: nat)
    requires i <= |groups| && (i < |groups| ==> groups[i].key == key) && forall k :: 0 <= k < i ==> groups[k].key != key
    ensures At(groups, key) == i
  {
    FirstIndexIs(groups, (g: Group) => g.key == key, i);
  }

  lemma PlacedAt(groups: seq<Group>, c: Card, customers: seq<Choice>, key: string)
    ensures
      var after := Placed(groups, c, customers);
      && (key != c.key ==> (At(after, key) < |after| <==> At(groups, key) < |groups|))
      && (key != c.key && At(groups, key) < |groups| ==> At(after, key) == At(groups, key))
      && At(after, c.key) == At(groups, c.key) < |after|
  {
    var after, i := Placed(groups, c, customers), At(groups, c.key);
    hide At;
    assert forall k :: 0 <= k < |groups| ==> after[k].key == groups[k].key;
    FirstIs(after, c.key, i);
    if key != c.key {
      var a := At(groups, key);
      if a < |groups| {
        FirstIs(after, key, a);
      } else {
        FirstIs(after, key, |after|);
      }
    }
  }

  lemma IndexAfter(at: map<string, nat>, groups: seq<Group>, c: Card, customers: seq<Choice>)
    requires Indexes(at, groups)
    ensures Indexes(at[c.key := At(groups, c.key)], Placed(groups, c, customers))
  {
    hide At, Placed;
    var after, more := Placed(groups, c, customers), at[c.key := At(groups, c.key)];
    forall key
      ensures key in more <==> At(after, key) < |after|
      ensures key in more ==> more[key] == At(after, key)
    {
      PlacedAt(groups, c, customers, key);
    }
  }

  lemma PlacedByIndex(at: map<string, nat>, groups: seq<Group>, c: Card, customers: seq<Choice>)
    requires Indexes(at, groups)
    ensures c.key in at ==> at[c.key] == At(groups, c.key) < |groups| && at[c.key := at[c.key]] == at
    ensures c.key !in at ==> At(groups, c.key) == |groups|
    ensures Placed(groups, c, customers) ==
      if c.key in at then groups[at[c.key] := groups[at[c.key]].(ids := groups[at[c.key]].ids + [c.id])]
      else groups + [Group(c.key, c.heading, HiddenFor(customers, c.key), [c.id])]
  {
    hide HiddenFor;
  }
}
