/** The stored clusters and which customers' sections are hidden (internal/cluster/repository.go,
    internal/domain/group.go and cluster.go). A write the disk refuses changes nothing. */
module Customers {
  import opened Order
  import opened Text

  datatype Kind = UnknownKind | Development | Staging | Production | OtherKind(text: string)

  datatype Cluster = Cluster(id: string, name: string, customerId: string, customerName: string, kind: Kind,
                             kubeconfigRef: string, contextName: string, archived: bool,
                             labels: Option<map<string, string>>, createdAt: nat, updatedAt: nat)

  /** What a form, an import or a handoff asks for. */
  datatype Input = Input(name: string, customerId: string, customerName: string, kind: Kind, kubeconfigRef: string,
                         contextName: string, requiresAccess: bool, accessProfileId: string,
                         labels: Option<map<string, string>>)

  datatype Choice = Choice(key: string, hidden: bool)

  datatype Data = Data(clusters: seq<Cluster>, customers: seq<Choice>)

  const EMPTY := Data([], [])
  const ARCHIVED_KEY := "biebie/archived"
  const ARCHIVED_LABEL := "Archived"
  const UNGROUPED_LABEL := "Ungrouped"

  predicate ValidInput(i: Input) {
    TrimSpace(i.name) != "" && TrimSpace(i.kubeconfigRef) != "" && TrimSpace(i.contextName) != "" &&
    (i.requiresAccess ==> TrimSpace(i.accessProfileId) != "") && !i.kind.OtherKind?
  }

  function ToRecord(i: Input, id: string, created: nat, updated: nat): Cluster {
    Cluster(id, TrimSpace(i.name), TrimSpace(i.customerId), TrimSpace(i.customerName), i.kind, i.kubeconfigRef, i.contextName,
            false, i.labels, created, updated)
  }

  // ---- which section a cluster is in ----

  function CustomerKey(c: Cluster): string {
    if TrimSpace(c.customerId) != "" then TrimSpace(c.customerId) else TrimSpace(c.customerName)
  }

  function CustomerLabel(c: Cluster): string {
    if TrimSpace(c.customerName) != "" then TrimSpace(c.customerName)
    else if TrimSpace(c.customerId) != "" then TrimSpace(c.customerId)
    else UNGROUPED_LABEL
  }

  function GroupKey(c: Cluster): string {
    if c.archived then ARCHIVED_KEY else CustomerKey(c)
  }

  function GroupLabel(c: Cluster): string {
    if c.archived then ARCHIVED_LABEL else CustomerLabel(c)
  }

  // ---- which sections are hidden ----

  predicate HiddenByDefault(key: string) { key == ARCHIVED_KEY }

  predicate CanHide(key: string) { key != "" }

  /** The choice recorded for a section; of two, the later one. */
  function Chosen(customers: seq<Choice>, key: string): Option<bool>
    decreases |customers|
  {
    if customers == [] then None
    else if customers[|customers| - 1].key == key then Some(customers[|customers| - 1].hidden)
    else Chosen(customers[..|customers| - 1], key)
  }

  predicate HiddenFor(customers: seq<Choice>, key: string) {
    CanHide(key) && Chosen(customers, key).GetOr(HiddenByDefault(key))
  }

  predicate InUse(clusters: seq<Cluster>, key: string) {
    exists i :: 0 <= i < |clusters| && CustomerKey(clusters[i]) == key
  }

  predicate Needed(clusters: seq<Cluster>, key: string) {
    key == ARCHIVED_KEY || InUse(clusters, key)
  }

  function Pruned(d: Data): Data {
    d.(customers := Select(d.customers, (r: Choice) => Needed(d.clusters, r.key)))
  }

  // ---- the operations ----

  predicate Taken(clusters: seq<Cluster>, kubeconfigRef: string, contextName: string) {
    exists i :: 0 <= i < |clusters| && clusters[i].kubeconfigRef == kubeconfigRef && clusters[i].contextName == contextName
  }

  /** Where the first cluster of that id is; past the end when there is none. */
  function Find(clusters: seq<Cluster>, id: string): (i: nat)
    ensures i <= |clusters| && (i < |clusters| ==> clusters[i].id == id)
    ensures forall k :: 0 <= k < i ==> clusters[k].id != id
  {
    FirstIndex(clusters, (c: Cluster) => c.id == id)
  }

  function Created(d: Data, i: Input, id: string, now: nat): Option<Data> {
    if !ValidInput(i) || Taken(d.clusters, i.kubeconfigRef, i.contextName) then None
    else Some(d.(clusters := d.clusters + [ToRecord(i, id, now, now)]))
  }

  /** An edit keeps what is not on the form. */
  function Edited(c: Cluster, i: Input, now: nat): Cluster {
    ToRecord(i, c.id, c.createdAt, now).(archived := c.archived, labels := if i.labels.Some? then i.labels else c.labels)
  }

  function Updated(d: Data, id: string, i: Input, now: nat): Option<Data> {
    var at := Find(d.clusters, id);
    if !ValidInput(i) || at == |d.clusters| then None
    else Some(Pruned(d.(clusters := d.clusters[at := Edited(d.clusters[at], i, now)])))
  }

  function Deleted(d: Data, id: string): Option<Data> {
    if Find(d.clusters, id) == |d.clusters| then None
    else Some(Pruned(d.(clusters := Select(d.clusters, (c: Cluster) => c.id != id))))
  }

  function Filed(d: Data, id: string, archived: bool, now: nat): Option<Data> {
    var at := Find(d.clusters, id);
    if at == |d.clusters| then None
    else Some(Pruned(d.(clusters := d.clusters[at := d.clusters[at].(archived := archived, updatedAt := now)])))
  }

  function WithoutChoice(customers: seq<Choice>, key: string): seq<Choice> {
    Select(customers, (r: Choice) => r.key != key)
  }

  function Shown(d: Data, key: string, hidden: bool): Option<Data> {
    var group := TrimSpace(key);
    if !CanHide(group) || !Needed(d.clusters, group) then None
    else Some(d.(customers := WithoutChoice(d.customers, group) + if hidden != HiddenByDefault(group) then [Choice(group, hidden)] else []))
  }

  datatype Operation =
    | Create(input: Input, id: string, now: nat)
    | Update(id: string, input: Input, now: nat)
    | Delete(id: string)
    | SetArchived(id: string, archived: bool, now: nat)
    | SetGroupHidden(key: string, hidden: bool)

  function Outcome(d: Data, op: Operation): Option<Data> {
    match op
    case Create(i, id, now) => Created(d, i, id, now)
    case Update(id, i, now) => Updated(d, id, i, now)
    case Delete(id) => Deleted(d, id)
    case SetArchived(id, archived, now) => Filed(d, id, archived, now)
    case SetGroupHidden(key, hidden) => Shown(d, key, hidden)
  }

  /** An operation, and whether the disk took the write. */
  function Next(d: Data, op: Operation, saved: bool): Data {
    if saved then Outcome(d, op).GetOr(d) else d
  }

  function Run(d: Data, ops: seq<(Operation, bool)>): Data
    decreases |ops|
  {
    if ops == [] then d else Run(Next(d, ops[0].0, ops[0].1), ops[1..])
  }

  // ---- what each operation touches ----

  /** Some input is missing, by more than white space; or the kind is none of those there are. */
  predicate Incomplete(i: Input) {
    || TrimSpace(i.name) == "" || TrimSpace(i.kubeconfigRef) == "" || TrimSpace(i.contextName) == ""
    || (i.requiresAccess && TrimSpace(i.accessProfileId) == "") || i.kind.OtherKind?
  }

  /** A new cluster is refused exactly when the form is incomplete or its context has a cluster; else it comes last, as
      the form says, and nothing else changes. */
  lemma CreatedMeans(d: Data, i: Input, id: string, now: nat)
    ensures Created(d, i, id, now).None? <==>
      Incomplete(i) || exists c :: c in d.clusters && c.kubeconfigRef == i.kubeconfigRef && c.contextName == i.contextName
    ensures Created(d, i, id, now).Some? ==>
      var after := Created(d, i, id, now).value;
      && after.customers == d.customers && |after.clusters| == |d.clusters| + 1 && d.clusters <= after.clusters
      && var c := after.clusters[|d.clusters|];
         && c.id == id && c.name == TrimSpace(i.name) && c.kind == i.kind && c.labels == i.labels && !c.archived
         && c.kubeconfigRef == i.kubeconfigRef && c.contextName == i.contextName && c.createdAt == c.updatedAt == now
         && c.customerId == TrimSpace(i.customerId) && c.customerName == TrimSpace(i.customerName)
  {
    if Taken(d.clusters, i.kubeconfigRef, i.contextName) {
      var k :| 0 <= k < |d.clusters| && d.clusters[k].kubeconfigRef == i.kubeconfigRef && d.clusters[k].contextName == i.contextName;
      assert d.clusters[k] in d.clusters;
    }
  }

  /** An edit changes one cluster: what is on the form, and when. Its identifier, the archive flag and when it was made
      stay, and so do its labels when the form says nothing about them. No other cluster changes or moves. */
  lemma UpdatedMeans(d: Data, id: string, i: Input, now: nat)
    ensures Updated(d, id, i, now).None? <==> Incomplete(i) || forall c :: c in d.clusters ==> c.id != id
    ensures Updated(d, id, i, now).Some? ==>
      var after, at := Updated(d, id, i, now).value.clusters, Find(d.clusters, id);
      && |after| == |d.clusters| && at < |after| && (forall k :: 0 <= k < |after| && k != at ==> after[k] == d.clusters[k])
      && var (was, c) := (d.clusters[at], after[at]);
         && c.id == was.id == id && c.archived == was.archived && c.createdAt == was.createdAt && c.updatedAt == now
         && c.labels == (if i.labels.Some? then i.labels else was.labels)
         && c.name == TrimSpace(i.name) && c.kind == i.kind && c.kubeconfigRef == i.kubeconfigRef && c.contextName == i.contextName
         && c.customerId == TrimSpace(i.customerId) && c.customerName == TrimSpace(i.customerName)
  {
    FoundExactly(d.clusters, id);
    hide Find;
  }

  lemma FoundExactly(clusters: seq<Cluster>, id: string)
    ensures Find(clusters, id) < |clusters| <==> exists c :: c in clusters && c.id == id
  {
    if Find(clusters, id) < |clusters| { assert clusters[Find(clusters, id)] in clusters; }
  }

  /** Filing changes the flag of one cluster, and when; deleting takes the clusters of that identifier and no others. */
  lemma FiledAndDeletedMean(d: Data, id: string, archived: bool, now: nat, c: Cluster)
    ensures Filed(d, id, archived, now).None? <==> Deleted(d, id).None?
    ensures Deleted(d, id).None? <==> forall c :: c in d.clusters ==> c.id != id
    ensures Filed(d, id, archived, now).Some? ==>
      var at := Find(d.clusters, id);
      at < |d.clusters| && Filed(d, id, archived, now).value.clusters == d.clusters[at := d.clusters[at].(archived := archived, updatedAt := now)]
    ensures Deleted(d, id).Some? ==> (c in Deleted(d, id).value.clusters <==> c in d.clusters && c.id != id)
  {
    FoundExactly(d.clusters, id);
    SelectMember(d.clusters, (x: Cluster) => x.id != id, c);
    hide Find;
  }

  /** Clusters of one customer are in one section however the customer's name is written, when they carry its identifier;
      without one they are told apart by name, white space around it aside; and a cluster that names no customer is in the
      section without a key. */
  lemma SectionsByCustomer(a: Cluster, b: Cluster)
    requires !a.archived && !b.archived
    ensures TrimSpace(a.customerId) == TrimSpace(b.customerId) != "" ==> GroupKey(a) == GroupKey(b)
    ensures TrimSpace(a.customerId) == TrimSpace(b.customerId) == "" ==>
      (GroupKey(a) == GroupKey(b) <==> TrimSpace(a.customerName) == TrimSpace(b.customerName))
    ensures TrimSpace(a.customerId) != "" && TrimSpace(b.customerId) != "" && GroupKey(a) == GroupKey(b) ==>
      TrimSpace(a.customerId) == TrimSpace(b.customerId)
    ensures GroupKey(a) == "" <==> TrimSpace(a.customerId) == "" && TrimSpace(a.customerName) == ""
    ensures GroupKey(a) == "" ==> GroupLabel(a) == "Ungrouped"
  {
  }

  /** Until somebody chooses otherwise the archive is hidden and no other section is; the section of clusters without a
      customer never is. */
  lemma HiddenUntilChosen(customers: seq<Choice>, key: string)
    ensures HiddenFor([], key) <==> key == "biebie/archived"
    ensures !HiddenFor(customers, "")
  {
  }

  /** A section can be shown or hidden exactly when it has a key and is the archive or some cluster's. */
  lemma ShownMeans(d: Data, key: string, hidden: bool)
    ensures Shown(d, key, hidden).Some? <==>
      TrimSpace(key) != "" && (TrimSpace(key) == "biebie/archived" || exists c :: c in d.clusters && CustomerKey(c) == TrimSpace(key))
  {
    var group := TrimSpace(key);
    if InUse(d.clusters, group) {
      var i :| 0 <= i < |d.clusters| && CustomerKey(d.clusters[i]) == group;
      assert d.clusters[i] in d.clusters;
    }
    hide CustomerKey, TrimSpace;
  }

  // ---- what is stored about visibility, in every state ----

  ghost predicate Distinct(customers: seq<Choice>) {
    forall i, j :: 0 <= i < j < |customers| ==> customers[i].key != customers[j].key
  }

  predicate Differs(r: Choice) {
    CanHide(r.key) && r.hidden != HiddenByDefault(r.key)
  }

  /** One record a section at most, each differing from the section's default, each for the archive or a
      customer some cluster still names. */
  ghost predicate Tidy(d: Data) {
    && Distinct(d.customers)
    && (forall r :: r in d.customers ==> Differs(r) && Needed(d.clusters, r.key))
  }

  lemma {:induction false} SelectDistinct(customers: seq<Choice>, keep: Choice -> bool)
    requires Distinct(customers)
    ensures Distinct(Select(customers, keep))
    decreases |customers|
  {
    if customers != [] {
      var init, last := customers[..|customers| - 1], customers[|customers| - 1];
      SelectDistinct(init, keep);
      forall i | 0 <= i < |Select(init, keep)| ensures Select(init, keep)[i].key != last.key {
        SelectMember(init, keep, Select(init, keep)[i]);
      }
    }
  }

  lemma PrunedIsTidy(d: Data)
    requires Distinct(d.customers) && forall r :: r in d.customers ==> Differs(r)
    ensures Tidy(Pruned(d))
  {
    var keep := (r: Choice) => Needed(d.clusters, r.key);
    SelectDistinct(d.customers, keep);
    forall r | r in Pruned(d).customers ensures Differs(r) && Needed(d.clusters, r.key) {
      SelectMember(d.customers, keep, r);
    }
  }

  lemma StillNeeded(clusters: seq<Cluster>, more: Cluster, key: string)
    requires Needed(clusters, key)
    ensures Needed(clusters + [more], key)
  {
    if key != ARCHIVED_KEY {
      var i :| 0 <= i < |clusters| && CustomerKey(clusters[i]) == key;
      assert (clusters + [more])[i] == clusters[i];
    }
  }

  lemma ShownIsTidy(d: Data, key: string, hidden: bool)
    requires Tidy(d) && Shown(d, key, hidden).Some?
    ensures Tidy(Shown(d, key, hidden).value)
  {
    var group := TrimSpace(key);
    var keep := (r: Choice) => r.key != group;
    var rest := WithoutChoice(d.customers, group);
    SelectDistinct(d.customers, keep);
    forall r ensures r in rest <==> r in d.customers && r.key != group {
      SelectMember(d.customers, keep, r);
    }
    assert forall i :: 0 <= i < |rest| ==> rest[i] in rest;
  }

  lemma OperationKeepsTidy(d: Data, op: Operation)
    requires Tidy(d) && Outcome(d, op).Some?
    ensures Tidy(Outcome(d, op).value)
  {
    match op
    case Create(i, id, now) =>
      forall r | r in d.customers ensures Needed(Created(d, i, id, now).value.clusters, r.key) {
        StillNeeded(d.clusters, ToRecord(i, id, now, now), r.key);
      }
    case Update(id, i, now) =>
      PrunedIsTidy(d.(clusters := d.clusters[Find(d.clusters, id) := Edited(d.clusters[Find(d.clusters, id)], i, now)]));
    case Delete(id) =>
      PrunedIsTidy(d.(clusters := Select(d.clusters, (c: Cluster) => c.id != id)));
    case SetArchived(id, archived, now) =>
      PrunedIsTidy(d.(clusters := d.clusters[Find(d.clusters, id) := d.clusters[Find(d.clusters, id)].(archived := archived, updatedAt := now)]));
    case SetGroupHidden(key, hidden) => ShownIsTidy(d, key, hidden);
  }

  lemma {:induction false} RunsAreTidy(d: Data, ops: seq<(Operation, bool)>)
    requires Tidy(d)
    ensures Tidy(Run(d, ops))
    decreases |ops|
  {
    if ops != [] {
      if Outcome(d, ops[0].0).Some? { OperationKeepsTidy(d, ops[0].0); }
      RunsAreTidy(Next(d, ops[0].0, ops[0].1), ops[1..]);
    }
  }

  /** Over every sequence of operations from an empty store. */
  lemma StoreIsTidy(ops: seq<(Operation, bool)>)
    ensures Tidy(Run(EMPTY, ops))
  {
    RunsAreTidy(EMPTY, ops);
  }

  // ---- what a choice does ----

  lemma ChosenAppend(s: seq<Choice>, r: Choice, key: string)
    ensures Chosen(s + [r], key) == if r.key == key then Some(r.hidden) else Chosen(s, key)
  {
    assert (s + [r])[..|s|] == s;
  }

  lemma {:induction false} ChosenKept(customers: seq<Choice>, keep: Choice -> bool, key: string)
    requires forall r :: r in customers && r.key == key ==> keep(r)
    ensures Chosen(Select(customers, keep), key) == Chosen(customers, key)
    decreases |customers|
  {
    if customers != [] {
      var init, last := customers[..|customers| - 1], customers[|customers| - 1];
      ChosenKept(init, keep, key);
      assert Select(init, keep) + [] == Select(init, keep);
      ChosenAppend(Select(init, keep), last, key);
    }
  }

  lemma {:induction false} ChosenDropped(customers: seq<Choice>, keep: Choice -> bool, key: string)
    requires forall r :: r in customers && r.key == key ==> !keep(r)
    ensures Chosen(Select(customers, keep), key) == None
    decreases |customers|
  {
    if customers != [] {
      var init, last := customers[..|customers| - 1], customers[|customers| - 1];
      ChosenDropped(init, keep, key);
      assert Select(init, keep) + [] == Select(init, keep);
      ChosenAppend(Select(init, keep), last, key);
    }
  }

  /** A visibility that is set reads back, in any spelling of the key, and no other section's changes. */
  lemma SetReadsBack(d: Data, key: string, hidden: bool, other: string)
    requires Shown(d, key, hidden).Some?
    ensures
      var after := Shown(d, key, hidden).value;
      after.clusters == d.clusters &&
      (HiddenFor(after.customers, other) <==> if other == TrimSpace(key) then hidden else HiddenFor(d.customers, other))
  {
    var group := TrimSpace(key);
    var rest := WithoutChoice(d.customers, group);
    var keep := (r: Choice) => r.key != group;
    if other == group { ChosenDropped(d.customers, keep, other); } else { ChosenKept(d.customers, keep, other); }
    assert rest + [] == rest;
    ChosenAppend(rest, Choice(group, hidden), other);
  }

  /** Any other operation keeps the visibility of the archive and of every customer a cluster still names, and
      returns the rest to their default. */
  lemma ChoicesOutlive(d: Data, op: Operation, key: string)
    requires Tidy(d) && !op.SetGroupHidden? && Outcome(d, op).Some?
    ensures
      var after := Outcome(d, op).value;
      HiddenFor(after.customers, key) <==>
        if Needed(after.clusters, key) then HiddenFor(d.customers, key) else CanHide(key) && HiddenByDefault(key)
  {
    var after := Outcome(d, op).value;
    var keep := (r: Choice) => Needed(after.clusters, r.key);
    if !op.Create? {
      assert after.customers == Select(d.customers, keep);
      if Needed(after.clusters, key) { ChosenKept(d.customers, keep, key); } else { ChosenDropped(d.customers, keep, key); }
    } else if !Needed(after.clusters, key) {
      if InUse(d.clusters, key) { StillNeeded(d.clusters, ToRecord(op.input, op.id, op.now, op.now), key); }
      NoRecordNoChoice(d.customers, key);
    }
  }

  lemma {:induction false} NoRecordNoChoice(customers: seq<Choice>, key: string)
    requires forall r :: r in customers ==> r.key != key
    ensures Chosen(customers, key) == None
    decreases |customers|
  {
    if customers != [] { NoRecordNoChoice(customers[..|customers| - 1], key); }
  }

  // ---- one cluster a context ----

  predicate SameContext(a: Cluster, b: Cluster) {
    a.kubeconfigRef == b.kubeconfigRef && a.contextName == b.contextName
  }

  ghost predicate ContextsUnique(clusters: seq<Cluster>) {
    forall i, j :: 0 <= i < j < |clusters| ==> !SameContext(clusters[i], clusters[j])
  }

  lemma {:induction false} SelectUnique(clusters: seq<Cluster>, keep: Cluster -> bool)
    requires ContextsUnique(clusters)
    ensures ContextsUnique(Select(clusters, keep))
    decreases |clusters|
  {
    if clusters != [] {
      var init, last := clusters[..|clusters| - 1], clusters[|clusters| - 1];
      SelectUnique(init, keep);
      forall i | 0 <= i < |Select(init, keep)| ensures !SameContext(Select(init, keep)[i], last) {
        SelectMember(init, keep, Select(init, keep)[i]);
      }
    }
  }

  /** Contexts stay apart under every operation but an edit, which does not look: it keeps them apart exactly
      when no other cluster has the context it moves to. */
  lemma ContextsStayUnique(d: Data, op: Operation)
    requires ContextsUnique(d.clusters) && Outcome(d, op).Some?
    ensures
      ContextsUnique(Outcome(d, op).value.clusters) <==>
      (op.Update? ==> forall k :: 0 <= k < |d.clusters| && k != Find(d.clusters, op.id) ==>
         !(d.clusters[k].kubeconfigRef == op.input.kubeconfigRef && d.clusters[k].contextName == op.input.contextName))
  {
    if op.Delete? { SelectUnique(d.clusters, (c: Cluster) => c.id != op.id); }
    if op.Update? {
      var at, after := Find(d.clusters, op.id), Outcome(d, op).value.clusters;
      forall k | 0 <= k < |d.clusters| && k != at
        ensures SameContext(after[k], after[at]) ==
          (d.clusters[k].kubeconfigRef == op.input.kubeconfigRef && d.clusters[k].contextName == op.input.contextName)
      {
      }
      if ContextsUnique(after) {
        forall k | 0 <= k < |d.clusters| && k != at ensures !SameContext(after[k], after[at]) {
          if k < at { assert !SameContext(after[k], after[at]); } else { assert !SameContext(after[at], after[k]); }
        }
      }
    }
  }
}
