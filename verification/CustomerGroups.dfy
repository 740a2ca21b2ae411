/** The sections of the cluster list (Groups in internal/cluster/repository.go): the customers', then one for
    clusters that name none, and behind them whatever was archived. */
module CustomerGroups {
  import opened Order
  import opened Text
  import opened Customers

  datatype Group = Group(key: string, heading: string, hidden: bool, ids: seq<string>)

  /** What the list reads of a cluster. */
  datatype Card = Card(id: string, name: string, customerName: string, production: bool, key: string, heading: string)

  function CardOf(c: Cluster): Card {
    Card(c.id, c.name, c.customerName, c.kind == Production, GroupKey(c), GroupLabel(c))
  }

  function Cards(clusters: seq<Cluster>): seq<Card> {
    seq(|clusters|, i requires 0 <= i < |clusters| => CardOf(clusters[i]))
  }

  predicate CardLess(a: Card, b: Card) {
    if a.customerName != b.customerName then Less(a.customerName, b.customerName)
    else if a.production != b.production then !a.production
    else Less(a.name, b.name)
  }

  function CardLeq(): (Card, Card) -> bool { (a, b) => !CardLess(b, a) }

  /** All: by customer, production last within a customer, then by name. */
  function Listed(clusters: seq<Cluster>): seq<Card> {
    StableSort(Cards(clusters), CardLeq())
  }

  function IdsIn(cards: seq<Card>, key: string): seq<string>
    decreases |cards|
  {
    if cards == [] then []
    else IdsIn(cards[..|cards| - 1], key) + if cards[|cards| - 1].key == key then [cards[|cards| - 1].id] else []
  }

  function At(groups: seq<Group>, key: string): (i: nat)
    ensures i <= |groups| && (i < |groups| ==> groups[i].key == key)
    ensures forall k :: 0 <= k < i ==> groups[k].key != key
  {
    FirstIndex(groups, (g: Group) => g.key == key)
  }

  function Placed(groups: seq<Group>, c: Card, customers: seq<Choice>): seq<Group> {
    var i := At(groups, c.key);
    if i < |groups| then groups[i := groups[i].(ids := groups[i].ids + [c.id])]
    else groups + [Group(c.key, c.heading, HiddenFor(customers, c.key), [c.id])]
  }

  function Gathered(cards: seq<Card>, customers: seq<Choice>): seq<Group>
    decreases |cards|
  {
    if cards == [] then [] else Placed(Gathered(cards[..|cards| - 1], customers), cards[|cards| - 1], customers)
  }

  function WithArchive(groups: seq<Group>, customers: seq<Choice>): seq<Group> {
    if At(groups, ARCHIVED_KEY) < |groups| then groups
    else groups + [Group(ARCHIVED_KEY, ARCHIVED_LABEL, HiddenFor(customers, ARCHIVED_KEY), [])]
  }

  function Rank(key: string): nat {
    if key == ARCHIVED_KEY then 2 else if key == "" then 1 else 0
  }

  function Lower(c: char): char {
    if 'A' <= c <= 'Z' then c - 'A' + 'a' else c
  }

  function ToLower(s: string): string {
    seq(|s|, i requires 0 <= i < |s| => Lower(s[i]))
  }

  predicate GroupLess(a: Group, b: Group) {
    if Rank(a.key) != Rank(b.key) then Rank(a.key) < Rank(b.key) else Less(ToLower(a.heading), ToLower(b.heading))
  }

  function GroupLeq(): (Group, Group) -> bool { (a, b) => !GroupLess(b, a) }

  function Groups(d: Data): seq<Group> {
    StableSort(WithArchive(Gathered(Listed(d.clusters), d.customers), d.customers), GroupLeq())
  }

  // ---- the groups partition the clusters ----

  /** A group holds exactly the clusters of its section, in the order of the list. */
  ghost predicate Holds(g: Group, cards: seq<Card>, customers: seq<Choice>) {
    g.ids == IdsIn(cards, g.key) && g.hidden == HiddenFor(customers, g.key) && (g.ids == [] ==> g.key == ARCHIVED_KEY)
  }

  ghost predicate Partition(groups: seq<Group>, cards: seq<Card>, customers: seq<Choice>) {
    && (forall i, j :: 0 <= i < j < |groups| ==> groups[i].key != groups[j].key)
    && (forall g :: g in groups ==> Holds(g, cards, customers))
    && (forall c :: c in cards ==> At(groups, c.key) < |groups|)
  }

  lemma {:induction false} GatheredIsPartition(cards: seq<Card>, customers: seq<Choice>)
    ensures Partition(Gathered(cards, customers), cards, customers)
    ensures forall g :: g in Gathered(cards, customers) ==> g.ids != []
    decreases |cards|
  {
    if cards != [] {
      var init, c := cards[..|cards| - 1], cards[|cards| - 1];
      GatheredIsPartition(init, customers);
      PlacedIsPartition(Gathered(init, customers), init, c, customers);
      assert init + [c] == cards;
    }
  }

  lemma {:induction false} IdsOfNone(cards: seq<Card>, key: string)
    requires forall c :: c in cards ==> c.key != key
    ensures IdsIn(cards, key) == []
    decreases |cards|
  {
    if cards != [] { IdsOfNone(cards[..|cards| - 1], key); }
  }

  lemma IdsAppend(cards: seq<Card>, c: Card, key: string)
    ensures IdsIn(cards + [c], key) == IdsIn(cards, key) + if c.key == key then [c.id] else []
  {
    assert (cards + [c])[..|cards|] == cards;
  }

  lemma PlacedHolds(groups: seq<Group>, cards: seq<Card>, c: Card, customers: seq<Choice>, k: nat)
    requires Partition(groups, cards, customers) && k < |Placed(groups, c, customers)|
    ensures Holds(Placed(groups, c, customers)[k], cards + [c], customers)
    ensures k < |groups| ==> Placed(groups, c, customers)[k].key == groups[k].key && |Placed(groups, c, customers)[k].ids| >= |groups[k].ids|
    ensures k == |groups| ==> Placed(groups, c, customers)[k].ids != []
  {
    hide HiddenFor, IdsIn;
    var after, i := Placed(groups, c, customers), At(groups, c.key);
    IdsAppend(cards, c, after[k].key);
    if k < |groups| {
      assert Holds(groups[k], cards, customers);
    } else {
      forall x | x in cards ensures x.key != c.key { assert At(groups, x.key) < |groups|; }
      IdsOfNone(cards, c.key);
    }
    hide At;
  }

  lemma PlacedFinds(groups: seq<Group>, c: Card, customers: seq<Choice>, key: string)
    requires key == c.key || At(groups, key) < |groups|
    ensures At(Placed(groups, c, customers), key) < |Placed(groups, c, customers)|
  {
    hide HiddenFor;
    var after, at := Placed(groups, c, customers), At(groups, key);
    assert after[at].key == key;
  }

  lemma PlacedIsPartition(groups: seq<Group>, cards: seq<Card>, c: Card, customers: seq<Choice>)
    requires Partition(groups, cards, customers) && forall g :: g in groups ==> g.ids != []
    ensures Partition(Placed(groups, c, customers), cards + [c], customers)
    ensures forall g :: g in Placed(groups, c, customers) ==> g.ids != []
  {
    var after := Placed(groups, c, customers);
    assert |after| == |groups| || (|after| == |groups| + 1 && after[|groups|].key == c.key && At(groups, c.key) == |groups|);
    hide Placed, Holds, HiddenFor;
    forall k | 0 <= k < |after| ensures Holds(after[k], cards + [c], customers) && after[k].ids != [] {
      PlacedHolds(groups, cards, c, customers, k);
    }
    forall i, j | 0 <= i < j < |after| ensures after[i].key != after[j].key {
      PlacedHolds(groups, cards, c, customers, i);
      PlacedHolds(groups, cards, c, customers, j);
    }
    forall x | x in cards + [c] ensures At(after, x.key) < |after| {
      PlacedFinds(groups, c, customers, x.key);
    }
  }

  /** The sections, in any state: each cluster is in exactly one, the one of its key; each section holds its
      clusters in the order of the list; none but the archive is empty; the archive is there, once and last,
      and the clusters of no customer come after the named ones. */
  lemma GroupsPartition(d: Data)
    ensures Partition(Groups(d), Listed(d.clusters), d.customers)
    ensures Groups(d) != [] && Groups(d)[|Groups(d)| - 1].key == ARCHIVED_KEY
    ensures forall i, j :: 0 <= i < j < |Groups(d)| ==> Rank(Groups(d)[i].key) <= Rank(Groups(d)[j].key)
    ensures multiset(Listed(d.clusters)) == multiset(Cards(d.clusters))
  {
    var cards := Listed(d.clusters);
    var gathered := Gathered(cards, d.customers);
    var all := WithArchive(gathered, d.customers);
    StableSortKeeps(Cards(d.clusters), CardLeq());
    assert Groups(d) == StableSort(all, GroupLeq());
    hide Groups, Gathered, WithArchive, StableSort, IdsIn, At, Holds, Cards;
    GatheredIsPartition(cards, d.customers);
    ArchiveAdded(gathered, cards, d.customers);
    SortedPartition(all, cards, d.customers);
  }

  lemma ArchiveAdded(groups: seq<Group>, cards: seq<Card>, customers: seq<Choice>)
    requires Partition(groups, cards, customers)
    ensures Partition(WithArchive(groups, customers), cards, customers)
    ensures exists g :: g in WithArchive(groups, customers) && g.key == ARCHIVED_KEY
  {
    var all, i := WithArchive(groups, customers), At(groups, ARCHIVED_KEY);
    assert all[i] in all && all[i].key == ARCHIVED_KEY;
    if i == |groups| {
      forall x | x in cards ensures x.key != ARCHIVED_KEY && At(all, x.key) < |all| {
        assert At(groups, x.key) < |groups|;
        assert all[At(groups, x.key)].key == x.key;
      }
      IdsOfNone(cards, ARCHIVED_KEY);
    }
  }

  lemma GroupOrder()
    ensures TotalPreorder(GroupLeq())
  {
    forall a: Group, b: Group ensures GroupLeq()(a, b) || GroupLeq()(b, a) {
      LessTrichotomy(ToLower(a.heading), ToLower(b.heading));
    }
    forall a: Group, b: Group, c: Group | GroupLeq()(a, b) && GroupLeq()(b, c) ensures GroupLeq()(a, c) {
      var x, y, z := ToLower(a.heading), ToLower(b.heading), ToLower(c.heading);
      LessTrichotomy(x, y);
      LessTrichotomy(y, z);
      LessTrichotomy(x, z);
      if Less(x, y) && Less(y, z) { LessTransitive(x, y, z); }
    }
  }

  lemma SortedPartition(groups: seq<Group>, cards: seq<Card>, customers: seq<Choice>)
    requires Partition(groups, cards, customers) && exists g :: g in groups && g.key == ARCHIVED_KEY
    ensures
      var s := StableSort(groups, GroupLeq());
      Partition(s, cards, customers) && s != [] && s[|s| - 1].key == ARCHIVED_KEY &&
      forall i, j :: 0 <= i < j < |s| ==> Rank(s[i].key) <= Rank(s[j].key)
  {
    var s := StableSort(groups, GroupLeq());
    StableSortKeeps(groups, GroupLeq());
    SameElements(groups, s);
    KeysStayDistinct(groups, s);
    RanksAscend(groups);
    hide StableSort, Holds, At, IdsIn, GroupLeq;
    forall c | c in cards ensures At(s, c.key) < |s| {
      var g := groups[At(groups, c.key)];
      assert g in s;
    }
    var g :| g in groups && g.key == ARCHIVED_KEY;
    ArchiveIsLast(s, g);
  }

  lemma RanksAscend(groups: seq<Group>)
    ensures var s := StableSort(groups, GroupLeq()); forall i, j :: 0 <= i < j < |s| ==> Rank(s[i].key) <= Rank(s[j].key)
  {
    var s := StableSort(groups, GroupLeq());
    GroupOrder();
    StableSortSorts(groups, GroupLeq());
    hide StableSort;
    forall i, j | 0 <= i < j < |s| ensures Rank(s[i].key) <= Rank(s[j].key) {
      assert GroupLeq()(s[i], s[j]);
    }
  }

  lemma ArchiveIsLast(s: seq<Group>, g: Group)
    requires g in s && g.key == ARCHIVED_KEY && forall i, j :: 0 <= i < j < |s| ==> Rank(s[i].key) <= Rank(s[j].key)
    ensures s[|s| - 1].key == ARCHIVED_KEY
  {
    var k :| 0 <= k < |s| && s[k] == g;
    assert k < |s| - 1 ==> Rank(s[k].key) <= Rank(s[|s| - 1].key);
  }

  lemma SameElements<T>(a: seq<T>, b: seq<T>)
    requires multiset(a) == multiset(b)
    ensures forall x :: x in a <==> x in b
  {
    forall x ensures x in a <==> x in b {
      assert x in a <==> x in multiset(a);
      assert x in b <==> x in multiset(b);
    }
  }

  lemma KeysStayDistinct(a: seq<Group>, b: seq<Group>)
    requires multiset(a) == multiset(b) && forall i, j :: 0 <= i < j < |a| ==> a[i].key != a[j].key
    ensures forall i, j :: 0 <= i < j < |b| ==> b[i].key != b[j].key
  {
    SameElements(a, b);
    forall i, j | 0 <= i < j < |b| ensures b[i].key != b[j].key {
      assert b[i] in a && b[j] in a;
      if b[i].key == b[j].key {
        var p :| 0 <= p < |a| && a[p] == b[i];
        var q :| 0 <= q < |a| && a[q] == b[j];
        assert p == q;
        TwiceCounts(b, i, j);
        OnceInBag(a, p);
      }
    }
  }

  lemma OnceInBag(s: seq<Group>, p: nat)
    requires p < |s| && forall i, j :: 0 <= i < j < |s| ==> s[i].key != s[j].key
    ensures multiset(s)[s[p]] == 1
  {
    assert s == s[..p] + [s[p]] + s[p + 1..];
    assert s[p] !in s[..p] && s[p] !in s[p + 1..];
  }

  // ---- the order they are shown in ----

  /** The list is by customer, within a customer with production last, and then by name. */
  lemma ListIsInOrder(d: Data, i: nat, j: nat)
    requires i < j < |Listed(d.clusters)|
    ensures
      var a, b := Listed(d.clusters)[i], Listed(d.clusters)[j];
      && !Less(b.customerName, a.customerName)
      && (a.customerName == b.customerName ==> (a.production ==> b.production))
      && (a.customerName == b.customerName && a.production == b.production ==> !Less(b.name, a.name))
  {
    CardOrder();
    StableSortSorts(Cards(d.clusters), CardLeq());
    hide StableSort, Cards;
    assert CardLeq()(Listed(d.clusters)[i], Listed(d.clusters)[j]);
    LessTrichotomy(Listed(d.clusters)[i].customerName, Listed(d.clusters)[j].customerName);
  }

  lemma CardOrder()
    ensures TotalPreorder(CardLeq())
  {
    forall a: Card, b: Card ensures CardLeq()(a, b) || CardLeq()(b, a) {
      LessTrichotomy(a.customerName, b.customerName);
      LessTrichotomy(a.name, b.name);
    }
    forall a: Card, b: Card, c: Card | CardLeq()(a, b) && CardLeq()(b, c) ensures CardLeq()(a, c) {
      CardsInOrder(a, b, c);
    }
  }

  lemma CardsInOrder(a: Card, b: Card, c: Card)
    requires !CardLess(b, a) && !CardLess(c, b)
    ensures !CardLess(c, a)
  {
    LessTrichotomy(a.customerName, b.customerName);
    LessTrichotomy(b.customerName, c.customerName);
    LessTrichotomy(a.customerName, c.customerName);
    LessTrichotomy(a.name, b.name);
    LessTrichotomy(b.name, c.name);
    LessTrichotomy(a.name, c.name);
    if Less(a.customerName, b.customerName) && Less(b.customerName, c.customerName) { LessTransitive(a.customerName, b.customerName, c.customerName); }
    if Less(a.name, b.name) && Less(b.name, c.name) { LessTransitive(a.name, b.name, c.name); }
  }

  /** What a cluster is listed by: whether it is production, and the section and heading it comes under. */
  lemma CardMeans(c: Cluster)
    ensures CardOf(c).id == c.id && CardOf(c).name == c.name && CardOf(c).customerName == c.customerName
    ensures CardOf(c).production <==> c.kind == Production
    ensures c.archived ==> CardOf(c).key == "biebie/archived" && CardOf(c).heading == "Archived"
    ensures !c.archived && TrimSpace(c.customerName) != "" ==> CardOf(c).heading == TrimSpace(c.customerName)
    ensures !c.archived && TrimSpace(c.customerName) == "" && TrimSpace(c.customerId) != "" ==>
      CardOf(c).heading == CardOf(c).key == TrimSpace(c.customerId)
  {
  }

  /** The customers' sections are in the order of their headings, capitals and small letters alike. */
  lemma SectionsAreInOrder(d: Data, i: nat, j: nat)
    requires i < j < |Groups(d)| && Groups(d)[i].key != "" && Groups(d)[j].key != "" && Groups(d)[j].key != ARCHIVED_KEY
    ensures !Less(ToLower(Groups(d)[j].heading), ToLower(Groups(d)[i].heading))
  {
    var all := WithArchive(Gathered(Listed(d.clusters), d.customers), d.customers);
    GroupsPartition(d);
    GroupOrder();
    StableSortSorts(all, GroupLeq());
    assert Groups(d) == StableSort(all, GroupLeq());
    hide StableSort, Gathered, WithArchive, Listed, Groups;
    assert GroupLeq()(Groups(d)[i], Groups(d)[j]);
  }

  /** After the section of the clusters without a customer comes the archive and nothing else. */
  lemma NamelessBeforeArchive(d: Data, i: nat, j: nat)
    requires i < j < |Groups(d)| && Groups(d)[i].key == ""
    ensures Groups(d)[j].key == "biebie/archived"
  {
    GroupsPartition(d);
    hide Groups, Listed;
    assert Rank(Groups(d)[i].key) <= Rank(Groups(d)[j].key);
    assert Groups(d)[i].key != Groups(d)[j].key;
  }

  lemma LowerMeans(s: string, i: nat)
    requires i < |s|
    ensures |ToLower(s)| == |s|
    ensures ToLower(s)[i] as int == if 'A' <= s[i] <= 'Z' then s[i] as int + 32 else s[i] as int
  {
  }

  // ---- the headings ----

  /** The heading of the first cluster of a section. */
  function HeadingIn(cards: seq<Card>, key: string): Option<string>
    decreases |cards|
  {
    if cards == [] then None
    else
      var last := cards[|cards| - 1];
      match HeadingIn(cards[..|cards| - 1], key)
      case Some(h) => Some(h)
      case None => if last.key == key then Some(last.heading) else None
  }

  lemma {:induction false} HeadingOfNone(cards: seq<Card>, key: string)
    requires forall c :: c in cards ==> c.key != key
    ensures HeadingIn(cards, key) == None
    decreases |cards|
  {
    if cards != [] { HeadingOfNone(cards[..|cards| - 1], key); }
  }

  lemma {:induction false} GatheredHeadings(cards: seq<Card>, customers: seq<Choice>, g: Group)
    requires g in Gathered(cards, customers)
    ensures HeadingIn(cards, g.key) == Some(g.heading)
    decreases |cards|
  {
    var init, c := cards[..|cards| - 1], cards[|cards| - 1];
    var before := Gathered(init, customers);
    GatheredIsPartition(init, customers);
    PlacedHeading(before, c, customers, g);
    hide Gathered, Placed;
    if g.key == c.key && At(before, c.key) == |before| {
      forall x | x in init ensures x.key != c.key { assert At(before, x.key) < |before|; }
      HeadingOfNone(init, c.key);
    } else {
      var was: Group :| was in before && was.key == g.key && was.heading == g.heading;
      GatheredHeadings(init, customers, was);
    }
  }

  lemma PlacedHeading(groups: seq<Group>, c: Card, customers: seq<Choice>, g: Group)
    requires g in Placed(groups, c, customers)
    ensures
      || (g.key == c.key && g.heading == c.heading && At(groups, c.key) == |groups|)
      || exists was :: was in groups && was.key == g.key && was.heading == g.heading
    ensures g.key == c.key && At(groups, c.key) < |groups| ==> exists was :: was in groups && was.key == g.key && was.heading == g.heading
  {
    hide HiddenFor, At;
    var i := At(groups, c.key);
    if g !in groups && i < |groups| {
      assert groups[i] in groups;
    }
  }

  /** Every section is shown under the heading of its first cluster in the list; an archive with nothing in it under
      "Archived". */
  lemma HeadedByTheFirst(d: Data, g: Group)
    requires g in Groups(d)
    ensures g.heading == HeadingIn(Listed(d.clusters), g.key).GetOr("Archived")
  {
    var cards := Listed(d.clusters);
    var gathered := Gathered(cards, d.customers);
    var all := WithArchive(gathered, d.customers);
    assert Groups(d) == StableSort(all, GroupLeq());
    StableSortKeeps(all, GroupLeq());
    GatheredIsPartition(cards, d.customers);
    hide Groups, Gathered, StableSort, Listed, HeadingIn;
    SameElements(all, Groups(d));
    if g in gathered {
      GatheredHeadings(cards, d.customers, g);
    } else {
      forall x | x in cards ensures x.key != ARCHIVED_KEY { assert At(gathered, x.key) < |gathered|; }
      HeadingOfNone(cards, ARCHIVED_KEY);
    }
  }

  // ---- the archive ----

  lemma FindSame(a: seq<Cluster>, b: seq<Cluster>, id: string)
    requires |a| == |b| && forall i :: 0 <= i < |a| ==> a[i].id == b[i].id
    ensures Find(a, id) == Find(b, id)
  {
  }

  /** Filing a cluster in the archive, or taking it out, keeps every choice a tidy store holds. */
  lemma FilingKeepsChoices(d: Data, id: string, archived: bool, now: nat)
    requires Tidy(d) && Filed(d, id, archived, now).Some?
    ensures
      var at := Find(d.clusters, id);
      Filed(d, id, archived, now).value == d.(clusters := d.clusters[at := d.clusters[at].(archived := archived, updatedAt := now)])
  {
    var at := Find(d.clusters, id);
    var after := d.clusters[at := d.clusters[at].(archived := archived, updatedAt := now)];
    forall r | r in d.customers ensures Needed(after, r.key) {
      if r.key != ARCHIVED_KEY {
        var i :| 0 <= i < |d.clusters| && CustomerKey(d.clusters[i]) == r.key;
        assert CustomerKey(after[i]) == r.key;
      }
    }
    SelectAll(d.customers, (r: Choice) => Needed(after, r.key));
  }

  /** A cluster put in the archive and taken back out leaves the list as it was: the same sections, in the same
      order, with the same visibility, holding the same clusters in the same order. */
  lemma ArchiveAndBack(d: Data, id: string, later: nat, last: nat)
    requires Tidy(d) && Find(d.clusters, id) < |d.clusters| && !d.clusters[Find(d.clusters, id)].archived
    ensures Filed(d, id, true, later).Some? && Filed(Filed(d, id, true, later).value, id, false, last).Some?
    ensures
      var back := Filed(Filed(d, id, true, later).value, id, false, last).value;
      Groups(back) == Groups(d) && back.customers == d.customers
  {
    var at := Find(d.clusters, id);
    FilingKeepsChoices(d, id, true, later);
    var away := Filed(d, id, true, later).value;
    OperationKeepsTidy(d, SetArchived(id, true, later));
    FindSame(d.clusters, away.clusters, id);
    FilingKeepsChoices(away, id, false, last);
    var back := Filed(away, id, false, last).value;
    assert Cards(back.clusters) == Cards(d.clusters);
    hide *;
    SameCardsSameGroups(back, d);
  }

  lemma SameCardsSameGroups(a: Data, b: Data)
    requires Cards(a.clusters) == Cards(b.clusters) && a.customers == b.customers
    ensures Groups(a) == Groups(b)
  {
  }

  /** While it is away, the cluster is listed in the archive. */
  lemma AwayIsInTheArchive(d: Data, id: string, now: nat)
    requires Tidy(d) && Filed(d, id, true, now).Some?
    ensures
      var away := Filed(d, id, true, now).value;
      id in Groups(away)[|Groups(away)| - 1].ids
  {
    var away, at := Filed(d, id, true, now).value, Find(d.clusters, id);
    FilingKeepsChoices(d, id, true, now);
    var card := Cards(away.clusters)[at];
    assert card.id == id && card.key == ARCHIVED_KEY;
    hide Filed, Cards, Listed, Groups, Find;
    GroupsPartition(away);
    SameElements(Cards(away.clusters), Listed(away.clusters));
    assert card in Cards(away.clusters);
    IdIsIn(Listed(away.clusters), card);
    var archive := Groups(away)[|Groups(away)| - 1];
    assert Holds(archive, Listed(away.clusters), away.customers);
  }

  lemma {:induction false} IdIsIn(cards: seq<Card>, c: Card)
    requires c in cards
    ensures c.id in IdsIn(cards, c.key)
    decreases |cards|
  {
    var init := cards[..|cards| - 1];
    assert cards == init + [cards[|cards| - 1]];
    if c in init { IdIsIn(init, c); }
  }
}
