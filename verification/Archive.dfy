/** What the archive section holds: exactly what was put there, as long as no cluster's customer carries the
    archive's key, which nothing in the program prevents (internal/domain/group.go and cluster.go). */
module Archive {
  import opened Order
  import opened Text
  import opened Customers
  import opened CustomerGroups

  // ---- the section's clusters ----

  function ArchivedIds(clusters: seq<Cluster>): seq<string>
    decreases |clusters|
  {
    if clusters == [] then []
    else
      var last := clusters[|clusters| - 1];
      ArchivedIds(clusters[..|clusters| - 1]) + if last.archived then [last.id] else []
  }

  /** Listed in the archive by the key of its customer alone. */
  predicate Stray(c: Cluster) {
    CustomerKey(c) == ARCHIVED_KEY && !c.archived
  }

  function StrayIds(clusters: seq<Cluster>): seq<string>
    decreases |clusters|
  {
    if clusters == [] then []
    else
      var last := clusters[|clusters| - 1];
      StrayIds(clusters[..|clusters| - 1]) + if Stray(last) then [last.id] else []
  }

  ghost predicate NoStrays(clusters: seq<Cluster>) {
    forall c :: c in clusters && CustomerKey(c) == ARCHIVED_KEY ==> c.archived
  }

  lemma {:induction false} StraysAre(clusters: seq<Cluster>)
    ensures StrayIds(clusters) == [] <==> NoStrays(clusters)
    decreases |clusters|
  {
    if clusters != [] {
      var init := clusters[..|clusters| - 1];
      assert clusters == init + [clusters[|clusters| - 1]];
      StraysAre(init);
      assert clusters[|clusters| - 1] in clusters;
    }
  }

  lemma {:induction false} IdsConcat(a: seq<Card>, b: seq<Card>, key: string)
    ensures IdsIn(a + b, key) == IdsIn(a, key) + IdsIn(b, key)
    decreases |b|
  {
    if b == [] {
      assert a + b == a;
    } else {
      IdsConcat(a, b[..|b| - 1], key);
      assert (a + b)[..|a + b| - 1] == a + b[..|b| - 1];
    }
  }

  lemma IdsOfOne(c: Card, key: string)
    ensures IdsIn([c], key) == if c.key == key then [c.id] else []
  {
    assert [c][..0] == [];
  }

  /** Putting cards in another order keeps the clusters of every section. */
  lemma {:induction false} IdsOfInsert(c: Card, cards: seq<Card>, leq: (Card, Card) -> bool, key: string)
    ensures multiset(IdsIn(Insert(c, cards, leq), key)) == multiset(IdsIn([c], key)) + multiset(IdsIn(cards, key))
  {
    IdsConcat([c], cards, key);
    if !(cards == [] || leq(c, cards[0])) {
      IdsOfInsert(c, cards[1..], leq, key);
      IdsConcat([cards[0]], Insert(c, cards[1..], leq), key);
      IdsConcat([cards[0]], cards[1..], key);
      assert cards == [cards[0]] + cards[1..];
    }
  }

  lemma {:induction false} IdsOfSorted(cards: seq<Card>, leq: (Card, Card) -> bool, key: string)
    ensures multiset(IdsIn(StableSort(cards, leq), key)) == multiset(IdsIn(cards, key))
  {
    if cards != [] {
      IdsOfSorted(cards[1..], leq, key);
      IdsOfInsert(cards[0], StableSort(cards[1..], leq), leq, key);
      IdsConcat([cards[0]], cards[1..], key);
      assert cards == [cards[0]] + cards[1..];
    }
  }

  lemma BagsAppend(a: seq<string>, b: seq<string>, c: seq<string>, x: seq<string>, y: seq<string>, z: seq<string>)
    requires multiset(a) == multiset(b) + multiset(c) && multiset(x) == multiset(y) + multiset(z)
    ensures multiset(a + x) == multiset(b + y) + multiset(c + z)
  {
  }

  lemma ArchivedLast(clusters: seq<Cluster>)
    requires clusters != []
    ensures
      var init, last := clusters[..|clusters| - 1], clusters[|clusters| - 1];
      && ArchivedIds(clusters) == ArchivedIds(init) + (if last.archived then [last.id] else [])
      && StrayIds(clusters) == StrayIds(init) + (if Stray(last) then [last.id] else [])
      && (CardOf(last).key == ARCHIVED_KEY <==> last.archived || Stray(last))
      && CardOf(last).id == last.id
      && Cards(clusters) == Cards(init) + [CardOf(last)]
  {
    hide CustomerKey, CustomerLabel;
  }

  lemma {:induction false} IdsOfArchive(clusters: seq<Cluster>)
    ensures multiset(IdsIn(Cards(clusters), ARCHIVED_KEY)) == multiset(ArchivedIds(clusters)) + multiset(StrayIds(clusters))
    decreases |clusters|
  {
    if clusters != [] {
      var init, last := clusters[..|clusters| - 1], clusters[|clusters| - 1];
      ArchivedLast(clusters);
      assert Stray(last) ==> !last.archived;
      hide *;
      IdsOfArchive(init);
      IdsConcat(Cards(init), [CardOf(last)], ARCHIVED_KEY);
      IdsOfOne(CardOf(last), ARCHIVED_KEY);
      BagsAppend(IdsIn(Cards(init), ARCHIVED_KEY), ArchivedIds(init), StrayIds(init),
        IdsIn([CardOf(last)], ARCHIVED_KEY), if last.archived then [last.id] else [], if Stray(last) then [last.id] else []);
    }
  }

  lemma NoMore(a: seq<string>, b: seq<string>)
    ensures multiset(a) + multiset(b) == multiset(a) <==> b == []
  {
    assert |multiset(a) + multiset(b)| == |a| + |b|;
  }

  function ArchiveOf(d: Data): Group
    requires Groups(d) != []
  {
    Groups(d)[|Groups(d)| - 1]
  }

  lemma ArchiveIds(d: Data)
    requires Groups(d) != [] && ArchiveOf(d).key == ARCHIVED_KEY && Partition(Groups(d), Listed(d.clusters), d.customers)
    ensures multiset(ArchiveOf(d).ids) == multiset(IdsIn(Cards(d.clusters), ARCHIVED_KEY))
  {
    assert Holds(ArchiveOf(d), Listed(d.clusters), d.customers);
    IdsOfSorted(Cards(d.clusters), CardLeq(), ARCHIVED_KEY);
    hide Groups, IdsIn, StableSort, Cards;
  }

  /** In any state: the archive's section holds exactly the archived clusters if and only if every cluster whose
      customer carries the archive's key is archived. */
  lemma ArchiveHoldsTheArchived(d: Data)
    ensures Groups(d) != [] && ArchiveOf(d).key == ARCHIVED_KEY
    ensures multiset(ArchiveOf(d).ids) == multiset(ArchivedIds(d.clusters)) <==> NoStrays(d.clusters)
  {
    GroupsPartition(d);
    ArchiveIds(d);
    hide *;
    IdsOfArchive(d.clusters);
    StraysAre(d.clusters);
    NoMore(ArchivedIds(d.clusters), StrayIds(d.clusters));
  }

  // ---- how a stray comes about ----

  /** The section a form's customer leads to. */
  function InputKey(i: Input): string {
    CustomerKey(ToRecord(i, "", 0, 0))
  }

  /** An operation puts no cluster in the archive that was not sent there. */
  predicate Honours(d: Data, op: Operation) {
    match op
    case Create(i, _, _) => InputKey(i) != ARCHIVED_KEY
    case Update(id, i, _) =>
      InputKey(i) != ARCHIVED_KEY || (Find(d.clusters, id) < |d.clusters| && d.clusters[Find(d.clusters, id)].archived)
    case SetArchived(id, archived, _) =>
      archived || (Find(d.clusters, id) < |d.clusters| && CustomerKey(d.clusters[Find(d.clusters, id)]) != ARCHIVED_KEY)
    case _ => true
  }

  /** From a state without strays, an operation leads to one with a stray exactly when it is a new cluster, or an
      edit of one that is not archived, whose customer carries the key, or takes such a cluster out. */
  lemma StraysComeFrom(d: Data, op: Operation)
    requires NoStrays(d.clusters) && Outcome(d, op).Some?
    ensures NoStrays(Outcome(d, op).value.clusters) <==> Honours(d, op)
  {
    var after := Outcome(d, op).value.clusters;
    match op
    case Create(i, id, now) =>
      var c := ToRecord(i, id, now, now);
      assert after == d.clusters + [c] && c in after;
    case Update(id, i, now) =>
      OneReplaced(d.clusters, Find(d.clusters, id), Edited(d.clusters[Find(d.clusters, id)], i, now));
    case Delete(id) =>
      forall c | c in after ensures c in d.clusters { SelectMember(d.clusters, (x: Cluster) => x.id != id, c); }
    case SetArchived(id, archived, now) =>
      var at := Find(d.clusters, id);
      OneReplaced(d.clusters, at, d.clusters[at].(archived := archived, updatedAt := now));
    case SetGroupHidden(_, _) =>
  }

  lemma OneReplaced(clusters: seq<Cluster>, at: nat, c: Cluster)
    requires at < |clusters| && NoStrays(clusters)
    ensures NoStrays(clusters[at := c]) <==> !Stray(c)
  {
    assert clusters[at := c][at] == c;
  }

  predicate AvoidsKey(op: Operation) {
    (op.Create? || op.Update?) ==> InputKey(op.input) != ARCHIVED_KEY
  }

  ghost predicate KeyUnused(clusters: seq<Cluster>) {
    forall c :: c in clusters ==> CustomerKey(c) != ARCHIVED_KEY
  }

  lemma KeyStaysUnused(d: Data, op: Operation)
    requires KeyUnused(d.clusters) && AvoidsKey(op) && Outcome(d, op).Some?
    ensures KeyUnused(Outcome(d, op).value.clusters)
  {
    match op
    case Create(i, id, now) =>
    case Update(id, i, now) =>
      OneRenamed(d.clusters, Find(d.clusters, id), Edited(d.clusters[Find(d.clusters, id)], i, now));
    case Delete(id) =>
      forall c | c in Outcome(d, op).value.clusters ensures c in d.clusters {
        SelectMember(d.clusters, (x: Cluster) => x.id != id, c);
      }
    case SetArchived(id, archived, now) =>
      var at := Find(d.clusters, id);
      assert d.clusters[at] in d.clusters;
      OneRenamed(d.clusters, at, d.clusters[at].(archived := archived, updatedAt := now));
    case SetGroupHidden(_, _) =>
  }

  lemma OneRenamed(clusters: seq<Cluster>, at: nat, c: Cluster)
    requires at < |clusters| && KeyUnused(clusters) && CustomerKey(c) != ARCHIVED_KEY
    ensures KeyUnused(clusters[at := c])
  {
    hide CustomerKey;
  }

  lemma {:induction false} RunsLeaveKeyUnused(d: Data, ops: seq<(Operation, bool)>)
    requires KeyUnused(d.clusters) && forall o :: o in ops ==> AvoidsKey(o.0)
    ensures KeyUnused(Run(d, ops).clusters)
    decreases |ops|
  {
    if ops != [] {
      if Outcome(d, ops[0].0).Some? { KeyStaysUnused(d, ops[0].0); }
      RunsLeaveKeyUnused(Next(d, ops[0].0, ops[0].1), ops[1..]);
    }
  }

  /** Over every sequence of operations whose forms never carry the archive's key, by identifier or by name, the
      archive's section holds exactly the archived clusters. */
  lemma ArchiveIsWhatWasPutThere(ops: seq<(Operation, bool)>)
    requires forall o :: o in ops ==> AvoidsKey(o.0)
    ensures var d := Run(EMPTY, ops); Groups(d) != [] && multiset(ArchiveOf(d).ids) == multiset(ArchivedIds(d.clusters))
  {
    RunsLeaveKeyUnused(EMPTY, ops);
    ArchiveHoldsTheArchived(Run(EMPTY, ops));
  }

  /** In any state, a form whose customer carries the key, by identifier or by name, makes a cluster that is listed
      in the archive without having been put there. */
  lemma ArchiveKeyCanBeTyped(d: Data, i: Input, id: string, now: nat)
    requires InputKey(i) == ARCHIVED_KEY && Created(d, i, id, now).Some?
    ensures
      var after := Created(d, i, id, now).value;
      && !after.clusters[|after.clusters| - 1].archived && after.clusters[|after.clusters| - 1].id == id
      && Groups(after) != [] && ArchiveOf(after).key == ARCHIVED_KEY && id in ArchiveOf(after).ids
  {
    var after := Created(d, i, id, now).value;
    var card := Cards(after.clusters)[|d.clusters|];
    assert card.id == id && card.key == ARCHIVED_KEY;
    hide Groups, Listed, Cards, Created, CustomerKey;
    GroupsPartition(after);
    SameElements(Cards(after.clusters), Listed(after.clusters));
    assert card in Listed(after.clusters);
    IdIsIn(Listed(after.clusters), card);
    assert Holds(ArchiveOf(after), Listed(after.clusters), after.customers);
  }
}
