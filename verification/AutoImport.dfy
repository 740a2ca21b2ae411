/** Turning kubeconfig contexts into clusters, each at most once on its own account
    (internal/autoimport/autoimport.go, and Forget in internal/kubeconfig/service.go). */
module AutoImport {
  import opened Order
  import opened Customers
  import opened Repository
  import opened Text

  datatype Key = Key(kubeconfigRef: string, contextName: string)

  /** A context inside an indexed kubeconfig, with the environment its names were classified as. */
  datatype Entry = Entry(name: string, kind: Kind)

  datatype File = File(ref: string, name: string, contexts: seq<Entry>)

  datatype Candidate = Candidate(key: Key, fileName: string, kind: Kind, seen: bool)

  /** What becomes of one creation: the identifier it would get, when, and whether the disk takes it. */
  datatype Fate = Fate(id: string, now: nat, saved: bool)

  /** The store as automatic import reads it, and every context Sync ever made a cluster of. */
  datatype State = State(data: Data, seen: seq<Key>, enabled: bool, made: seq<Key>)

  function InputOf(c: Candidate): Input {
    Input(c.key.contextName, "", "", c.kind, c.key.kubeconfigRef, c.key.contextName, false, "", None)
  }

  predicate HasCluster(d: Data, k: Key) {
    Taken(d.clusters, k.kubeconfigRef, k.contextName)
  }

  // ---- the scan ----

  function CandidatesIn(file: File, n: nat, d: Data, seen: seq<Key>): seq<Candidate>
    requires n <= |file.contexts|
  {
    if n == 0 then []
    else
      var entry := file.contexts[n - 1];
      var key := Key(file.ref, entry.name);
      CandidatesIn(file, n - 1, d, seen) + if HasCluster(d, key) then [] else [Candidate(key, file.name, entry.kind, key in seen)]
  }

  function Candidates(files: seq<File>, d: Data, seen: seq<Key>): seq<Candidate>
    decreases |files|
  {
    if files == [] then []
    else Candidates(files[..|files| - 1], d, seen) + CandidatesIn(files[|files| - 1], |files[|files| - 1].contexts|, d, seen)
  }

  predicate CandidateLess(a: Candidate, b: Candidate) {
    if a.fileName != b.fileName then Less(a.fileName, b.fileName) else Less(a.key.contextName, b.key.contextName)
  }

  function CandidateLeq(): (Candidate, Candidate) -> bool { (a, b) => !CandidateLess(b, a) }

  function Scanned(files: seq<File>, d: Data, seen: seq<Key>): seq<Candidate> {
    StableSort(Candidates(files, d, seen), CandidateLeq())
  }

  // ---- the import ----

  datatype Progress = Progress(data: Data, added: seq<Key>, failed: seq<Key>)

  /** One candidate: created, or reported as failed because the input, the store or the disk refused it. */
  function Attempted(p: Progress, c: Candidate, f: Fate): Progress {
    var outcome := Created(p.data, InputOf(c), f.id, f.now);
    if f.saved && outcome.Some? then p.(data := outcome.value, added := p.added + [c.key]) else p.(failed := p.failed + [c.key])
  }

  function Imported(d: Data, candidates: seq<Candidate>, fate: nat -> Fate): Progress
    decreases |candidates|
  {
    if candidates == [] then Progress(d, [], [])
    else Attempted(Imported(d, candidates[..|candidates| - 1], fate), candidates[|candidates| - 1], fate(|candidates| - 1))
  }

  /** Every candidate is marked, whatever became of it. */
  function Marked(seen: seq<Key>, candidates: seq<Candidate>): seq<Key>
    decreases |candidates|
  {
    if candidates == [] then seen
    else
      var rest := Marked(seen, candidates[..|candidates| - 1]);
      var key := candidates[|candidates| - 1].key;
      if key in rest then rest else rest + [key]
  }

  function ImportAll(s: State, candidates: seq<Candidate>, fate: nat -> Fate, marked: bool): State {
    s.(data := Imported(s.data, candidates, fate).data, seen := if marked then Marked(s.seen, candidates) else s.seen)
  }

  function Unseen(): Candidate -> bool { (c: Candidate) => !c.seen }

  function Fresh(s: State, files: seq<File>): seq<Candidate> {
    Select(Scanned(files, s.data, s.seen), Unseen())
  }

  // ---- runs ----

  datatype Step =
    | Sync(files: seq<File>, fate: nat -> Fate, marked: bool)
    | ImportEverything(files: seq<File>, fate: nat -> Fate, marked: bool)
    | Edit(op: Operation, saved: bool)
    | SetEnabled(on: bool)
    | Forget(ref: string, saved: bool)

  predicate Uses(clusters: seq<Cluster>, ref: string) {
    exists i :: 0 <= i < |clusters| && clusters[i].kubeconfigRef == ref
  }

  /** Forgetting a kubeconfig no cluster uses forgets that its contexts were ever offered. */
  function Forgotten(s: State, ref: string): State {
    if Uses(s.data.clusters, ref) then s else s.(seen := Select(s.seen, (k: Key) => k.kubeconfigRef != ref))
  }

  function After(s: State, step: Step): State {
    match step
    case Sync(files, fate, marked) =>
      if !s.enabled then s
      else
        var offered := Fresh(s, files);
        ImportAll(s, offered, fate, marked).(made := s.made + Imported(s.data, offered, fate).added)
    case ImportEverything(files, fate, marked) => ImportAll(s, Scanned(files, s.data, s.seen), fate, marked)
    case Edit(op, saved) => s.(data := Customers.Next(s.data, op, saved))
    case SetEnabled(on) => s.(enabled := on)
    case Forget(ref, saved) => if saved then Forgotten(s, ref) else s
  }

  function Run(s: State, steps: seq<Step>): State
    decreases |steps|
  {
    if steps == [] then s else Run(After(s, steps[0]), steps[1..])
  }

  // ---- at most once ----

  predicate Marks(step: Step) {
    step.Sync? ==> step.marked
  }

  predicate Forgets(step: Step, k: Key) {
    step.Forget? && step.ref == k.kubeconfigRef && step.saved
  }

  lemma {:induction false} MarkedHolds(seen: seq<Key>, candidates: seq<Candidate>, k: Key)
    ensures k in Marked(seen, candidates) <==> k in seen || exists c :: c in candidates && c.key == k
    decreases |candidates|
  {
    if candidates != [] {
      var init, last := candidates[..|candidates| - 1], candidates[|candidates| - 1];
      MarkedHolds(seen, init, k);
      assert candidates == init + [last];
    }
  }

  /** What one import adds: contexts of candidates that had no cluster, each once, each with a cluster after. */
  lemma {:induction false} AddedOnce(d: Data, candidates: seq<Candidate>, fate: nat -> Fate)
    ensures
      var p := Imported(d, candidates, fate);
      && (forall k :: k in p.added ==> !HasCluster(d, k) && HasCluster(p.data, k) && exists c :: c in candidates && c.key == k)
      && (forall k :: k in multiset(p.added) ==> multiset(p.added)[k] == 1)
      && d.clusters <= p.data.clusters && d.customers == p.data.customers
    decreases |candidates|
  {
    if candidates != [] {
      var init, c := candidates[..|candidates| - 1], candidates[|candidates| - 1];
      AddedOnce(d, init, fate);
      assert candidates == init + [c];
      AttemptAdds(d, init, c, fate);
    }
  }

  lemma AttemptAdds(d: Data, init: seq<Candidate>, c: Candidate, fate: nat -> Fate)
    requires
      var p := Imported(d, init, fate);
      && (forall k :: k in p.added ==> !HasCluster(d, k) && HasCluster(p.data, k) && exists x :: x in init && x.key == k)
      && (forall k :: k in multiset(p.added) ==> multiset(p.added)[k] == 1)
      && d.clusters <= p.data.clusters && d.customers == p.data.customers
    ensures
      var p := Attempted(Imported(d, init, fate), c, fate(|init|));
      && (forall k :: k in p.added ==> !HasCluster(d, k) && HasCluster(p.data, k) && exists x :: x in init + [c] && x.key == k)
      && (forall k :: k in multiset(p.added) ==> multiset(p.added)[k] == 1)
      && d.clusters <= p.data.clusters && d.customers == p.data.customers
  {
    var before := Imported(d, init, fate);
    var p := Attempted(before, c, fate(|init|));
    hide Imported;
    if p.added != before.added {
      var record := ToRecord(InputOf(c), fate(|init|).id, fate(|init|).now, fate(|init|).now);
      assert p.data.clusters == before.data.clusters + [record];
      assert c.key !in before.added && c.key !in multiset(before.added);
      forall k | k in p.added
        ensures !HasCluster(d, k) && HasCluster(p.data, k) && exists x :: x in init + [c] && x.key == k
      {
        if k in before.added {
          MoreClusters(before.data.clusters, record, k);
          var x :| x in init && x.key == k;
          assert x in init + [c];
        } else {
          assert p.data.clusters[|before.data.clusters|] == record;
          assert c in init + [c];
          if HasCluster(d, k) { StillTaken(d.clusters, before.data.clusters, k); }
        }
      }
    } else {
      forall k | k in p.added ensures exists x :: x in init + [c] && x.key == k {
        var x :| x in init && x.key == k;
        assert x in init + [c];
      }
    }
  }

  lemma StillTaken(a: seq<Cluster>, b: seq<Cluster>, k: Key)
    requires a <= b && Taken(a, k.kubeconfigRef, k.contextName)
    ensures Taken(b, k.kubeconfigRef, k.contextName)
  {
    var i :| 0 <= i < |a| && a[i].kubeconfigRef == k.kubeconfigRef && a[i].contextName == k.contextName;
    assert b[i] == a[i];
  }

  lemma MoreClusters(a: seq<Cluster>, more: Cluster, k: Key)
    requires Taken(a, k.kubeconfigRef, k.contextName)
    ensures Taken(a + [more], k.kubeconfigRef, k.contextName)
  {
    StillTaken(a, a + [more], k);
  }

  lemma {:induction false} CandidatesAre(files: seq<File>, d: Data, seen: seq<Key>, c: Candidate)
    requires c in Candidates(files, d, seen)
    ensures (c.seen <==> c.key in seen) && !HasCluster(d, c.key)
    decreases |files|
  {
    var init, last := files[..|files| - 1], files[|files| - 1];
    if c in Candidates(init, d, seen) {
      CandidatesAre(init, d, seen, c);
    } else {
      CandidatesInAre(last, |last.contexts|, d, seen, c);
    }
  }

  lemma {:induction false} CandidatesInAre(file: File, n: nat, d: Data, seen: seq<Key>, c: Candidate)
    requires n <= |file.contexts| && c in CandidatesIn(file, n, d, seen)
    ensures (c.seen <==> c.key in seen) && !HasCluster(d, c.key)
  {
    if c in CandidatesIn(file, n - 1, d, seen) { CandidatesInAre(file, n - 1, d, seen, c); }
  }

  lemma ScannedAre(files: seq<File>, d: Data, seen: seq<Key>, c: Candidate)
    ensures c in Scanned(files, d, seen) <==> c in Candidates(files, d, seen)
    ensures c in Scanned(files, d, seen) ==> (c.seen <==> c.key in seen) && !HasCluster(d, c.key)
  {
    StableSortKeeps(Candidates(files, d, seen), CandidateLeq());
    assert c in Scanned(files, d, seen) <==> c in multiset(Scanned(files, d, seen));
    assert c in Candidates(files, d, seen) <==> c in multiset(Candidates(files, d, seen));
    if c in Candidates(files, d, seen) { CandidatesAre(files, d, seen, c); }
  }

  /** A context Sync has made a cluster of was made one once, and is marked. */
  predicate Once(s: State, k: Key) {
    multiset(s.made)[k] <= 1 && (k in s.made ==> k in s.seen)
  }

  lemma SyncOnce(s: State, files: seq<File>, fate: nat -> Fate, k: Key)
    requires Once(s, k)
    ensures Once(After(s, Sync(files, fate, true)), k)
  {
    if s.enabled {
      var offered := Fresh(s, files);
      var added := Imported(s.data, offered, fate).added;
      AddedOnce(s.data, offered, fate);
      MarkedHolds(s.seen, offered, k);
      if k in added {
        var c :| c in offered && c.key == k;
        SelectMember(Scanned(files, s.data, s.seen), Unseen(), c);
        ScannedAre(files, s.data, s.seen, c);
        assert k in multiset(added);
      } else {
        assert k !in multiset(added);
      }
      assert multiset(s.made + added)[k] == multiset(s.made)[k] + multiset(added)[k];
      assert k !in s.made ==> k !in multiset(s.made);
    }
  }

  lemma StepOnce(s: State, step: Step, k: Key)
    requires Once(s, k) && Marks(step) && !Forgets(step, k)
    ensures Once(After(s, step), k)
  {
    match step
    case Sync(files, fate, marked) => SyncOnce(s, files, fate, k);
    case ImportEverything(files, fate, marked) => MarkedHolds(s.seen, Scanned(files, s.data, s.seen), k);
    case Forget(ref, saved) => SelectMember(s.seen, (x: Key) => x.kubeconfigRef != ref, k);
    case _ =>
  }

  lemma {:induction false} RunOnce(s: State, steps: seq<Step>, k: Key)
    requires Once(s, k) && forall i :: 0 <= i < |steps| ==> Marks(steps[i]) && !Forgets(steps[i], k)
    ensures Once(Run(s, steps), k)
    decreases |steps|
  {
    if steps != [] {
      StepOnce(s, steps[0], k);
      RunOnce(After(s, steps[0]), steps[1..], k);
    }
  }

  /** Over any run of imports, edits and deletions in which Sync's own marks are saved, Sync makes a cluster of a
      context at most once, until its kubeconfig is forgotten. */
  lemma ImportedAtMostOnce(s: State, steps: seq<Step>, k: Key)
    requires s.made == [] && forall i :: 0 <= i < |steps| ==> Marks(steps[i]) && !Forgets(steps[i], k)
    ensures multiset(Run(s, steps).made)[k] <= 1
  {
    RunOnce(s, steps, k);
  }

  // ---- nothing is passed over ----

  /** The candidate a listed context makes. */
  function CandidateOf(file: File, e: nat, seen: seq<Key>): Candidate
    requires e < |file.contexts|
  {
    var key := Key(file.ref, file.contexts[e].name);
    Candidate(key, file.name, file.contexts[e].kind, key in seen)
  }

  lemma {:induction false} ListedIsCandidate(files: seq<File>, d: Data, seen: seq<Key>, f: nat, e: nat)
    requires f < |files| && e < |files[f].contexts| && !HasCluster(d, Key(files[f].ref, files[f].contexts[e].name))
    ensures CandidateOf(files[f], e, seen) in Candidates(files, d, seen)
    decreases |files|
  {
    var init, last := files[..|files| - 1], files[|files| - 1];
    if f < |init| { ListedIsCandidate(init, d, seen, f, e); } else { ListedInFile(last, |last.contexts|, d, seen, e); }
  }

  lemma {:induction false} ListedInFile(file: File, n: nat, d: Data, seen: seq<Key>, e: nat)
    requires e < n <= |file.contexts| && !HasCluster(d, Key(file.ref, file.contexts[e].name))
    ensures CandidateOf(file, e, seen) in CandidatesIn(file, n, d, seen)
  {
    if e == n - 1 {
      assert CandidatesIn(file, n, d, seen)[|CandidatesIn(file, n - 1, d, seen)|] == CandidateOf(file, e, seen);
    } else {
      ListedInFile(file, n - 1, d, seen, e);
    }
  }

  /** A listed context that has no cluster and is not marked is offered. */
  lemma ListedIsOffered(s: State, files: seq<File>, f: nat, e: nat)
    requires f < |files| && e < |files[f].contexts|
    requires var k := Key(files[f].ref, files[f].contexts[e].name); !HasCluster(s.data, k) && k !in s.seen
    ensures CandidateOf(files[f], e, s.seen) in Fresh(s, files)
  {
    var c := CandidateOf(files[f], e, s.seen);
    ListedIsCandidate(files, s.data, s.seen, f, e);
    ScannedAre(files, s.data, s.seen, c);
    SelectMember(Scanned(files, s.data, s.seen), Unseen(), c);
  }

  /** After an enabled Sync whose marks are saved, every listed context is a cluster or marked; no cluster there
      was is lost or changed. */
  lemma SyncPassesNothingOver(s: State, files: seq<File>, fate: nat -> Fate, f: nat, e: nat)
    requires s.enabled && f < |files| && e < |files[f].contexts|
    ensures
      var after := After(s, Sync(files, fate, true));
      var k := Key(files[f].ref, files[f].contexts[e].name);
      (HasCluster(after.data, k) || k in after.seen) && s.data.clusters <= after.data.clusters
  {
    var after := After(s, Sync(files, fate, true));
    var k := Key(files[f].ref, files[f].contexts[e].name);
    var offered := Fresh(s, files);
    AddedOnce(s.data, offered, fate);
    MarkedHolds(s.seen, offered, k);
    if HasCluster(s.data, k) {
      StillTaken(s.data.clusters, after.data.clusters, k);
    } else if k !in s.seen {
      ListedIsOffered(s, files, f, e);
    }
  }

  /** A candidate's creation goes through, if nothing has its context yet. */
  predicate Succeeds(c: Candidate, f: Fate) {
    ValidInput(InputOf(c)) && f.saved
  }

  ghost predicate SomeSucceeds(candidates: seq<Candidate>, fate: nat -> Fate, k: Key) {
    exists n: nat :: n < |candidates| && candidates[n].key == k && Succeeds(candidates[n], fate(n))
  }

  lemma SomeMore(init: seq<Candidate>, c: Candidate, fate: nat -> Fate, k: Key)
    ensures SomeSucceeds(init + [c], fate, k) <==> SomeSucceeds(init, fate, k) || (c.key == k && Succeeds(c, fate(|init|)))
  {
    var all := init + [c];
    hide Succeeds;
    if SomeSucceeds(init, fate, k) {
      var n: nat :| n < |init| && init[n].key == k && Succeeds(init[n], fate(n));
      assert all[n] == init[n];
    }
    assert all[|init|] == c;
    if SomeSucceeds(all, fate, k) {
      var n: nat :| n < |all| && all[n].key == k && Succeeds(all[n], fate(n));
      assert n < |init| ==> init[n] == all[n];
    }
  }

  /** An import adds a context exactly when it had no cluster and one of its candidates goes through. */
  lemma {:induction false} AddedExactly(d: Data, candidates: seq<Candidate>, fate: nat -> Fate, k: Key)
    ensures k in Imported(d, candidates, fate).added <==> !HasCluster(d, k) && SomeSucceeds(candidates, fate, k)
    decreases |candidates|
  {
    if candidates != [] {
      var init, c := candidates[..|candidates| - 1], candidates[|candidates| - 1];
      assert candidates == init + [c];
      AddedExactly(d, init, fate, k);
      SomeMore(init, c, fate, k);
      AttemptedExactly(d, init, c, fate, k);
    }
  }

  lemma AttemptedExactly(d: Data, init: seq<Candidate>, c: Candidate, fate: nat -> Fate, k: Key)
    ensures
      var before := Imported(d, init, fate);
      k in Attempted(before, c, fate(|init|)).added <==>
        k in before.added || (c.key == k && Succeeds(c, fate(|init|)) && !HasCluster(d, k))
  {
    var before := Imported(d, init, fate);
    AddedOnce(d, init, fate);
    HasClusterAfter(d, init, fate, k);
    hide Imported, ValidInput, Taken;
  }

  /** After an import, a context has a cluster exactly when it had one or was added. */
  lemma {:induction false} HasClusterAfter(d: Data, candidates: seq<Candidate>, fate: nat -> Fate, k: Key)
    ensures HasCluster(Imported(d, candidates, fate).data, k) <==> HasCluster(d, k) || k in Imported(d, candidates, fate).added
    decreases |candidates|
  {
    if candidates != [] {
      var init, c := candidates[..|candidates| - 1], candidates[|candidates| - 1];
      HasClusterAfter(d, init, fate, k);
      var before, f := Imported(d, init, fate), fate(|init|);
      OneMoreCluster(before.data.clusters, ToRecord(InputOf(c), f.id, f.now, f.now), k);
      hide ValidInput, Taken;
    }
  }

  lemma OneMoreCluster(a: seq<Cluster>, more: Cluster, k: Key)
    ensures Taken(a + [more], k.kubeconfigRef, k.contextName) <==>
      Taken(a, k.kubeconfigRef, k.contextName) || (more.kubeconfigRef == k.kubeconfigRef && more.contextName == k.contextName)
  {
    if Taken(a, k.kubeconfigRef, k.contextName) { MoreClusters(a, more, k); }
    assert (a + [more])[|a|] == more;
  }

  /** An enabled Sync adds a context exactly when it is not marked, has no cluster, and a candidate the listing makes
      of it is valid and its write is saved. */
  lemma SyncAddsExactly(s: State, files: seq<File>, fate: nat -> Fate, k: Key)
    ensures k in Imported(s.data, Fresh(s, files), fate).added <==>
      k !in s.seen && !HasCluster(s.data, k) && SomeSucceeds(Fresh(s, files), fate, k)
  {
    AddedExactly(s.data, Fresh(s, files), fate, k);
    if SomeSucceeds(Fresh(s, files), fate, k) {
      var n: nat :| n < |Fresh(s, files)| && Fresh(s, files)[n].key == k && Succeeds(Fresh(s, files)[n], fate(n));
      var c := Fresh(s, files)[n];
      SelectMember(Scanned(files, s.data, s.seen), Unseen(), c);
      ScannedAre(files, s.data, s.seen, c);
    }
  }

  // ---- what an unsaved mark costs ----

  /** From any state: a context Sync made a cluster of, and whose cluster has gone by some later state that still has
      the marks of that Sync, is made again by the next Sync that can, exactly when the mark was not saved. */
  lemma UnsavedMarkRecreates(s: State, files: seq<File>, fate: nat -> Fate, marked: bool, k: Key,
                             gone: State, files2: seq<File>, fate2: nat -> Fate, f: nat, e: nat)
    requires s.enabled && k in Imported(s.data, Fresh(s, files), fate).added
    requires gone.enabled && gone.seen == After(s, Sync(files, fate, marked)).seen && !HasCluster(gone.data, k)
    requires f < |files2| && e < |files2[f].contexts| && CandidateOf(files2[f], e, []).key == k
    requires ValidInput(InputOf(CandidateOf(files2[f], e, []))) && forall n: nat :: fate2(n).saved
    ensures k in Imported(gone.data, Fresh(gone, files2), fate2).added <==> !marked
  {
    var offered, again := Fresh(s, files), Fresh(gone, files2);
    SyncAddsExactly(s, files, fate, k);
    SyncAddsExactly(gone, files2, fate2, k);
    AddedOnce(s.data, offered, fate);
    MarkedHolds(s.seen, offered, k);
    hide Imported, Fresh, HasCluster, ValidInput, Marked;
    if !marked {
      ListedIsOffered(gone, files2, f, e);
      var c := CandidateOf(files2[f], e, gone.seen);
      assert InputOf(c) == InputOf(CandidateOf(files2[f], e, []));
      var n :| 0 <= n < |again| && again[n] == c;
      assert Succeeds(again[n], fate2(n));
    }
  }

  // ---- what is made of a context ----

  ghost predicate IsListed(files: seq<File>, seen: seq<Key>, c: Candidate) {
    exists f: nat, e: nat :: f < |files| && e < |files[f].contexts| && CandidateOf(files[f], e, seen) == c
  }

  lemma {:induction false} FromTheListing(files: seq<File>, d: Data, seen: seq<Key>, c: Candidate)
    requires c in Candidates(files, d, seen)
    ensures IsListed(files, seen, c)
    decreases |files|
  {
    var init, last := files[..|files| - 1], files[|files| - 1];
    if c in Candidates(init, d, seen) {
      FromTheListing(init, d, seen, c);
      var f: nat, e: nat :| f < |init| && e < |init[f].contexts| && CandidateOf(init[f], e, seen) == c;
      assert CandidateOf(files[f], e, seen) == c;
    } else {
      var e := FromTheFile(last, |last.contexts|, d, seen, c);
      assert CandidateOf(files[|files| - 1], e, seen) == c;
    }
  }

  lemma {:induction false} FromTheFile(file: File, n: nat, d: Data, seen: seq<Key>, c: Candidate) returns (e: nat)
    requires n <= |file.contexts| && c in CandidatesIn(file, n, d, seen)
    ensures e < n && CandidateOf(file, e, seen) == c
  {
    if c in CandidatesIn(file, n - 1, d, seen) { e := FromTheFile(file, n - 1, d, seen, c); } else { e := n - 1; }
  }

  /** A scan offers exactly the contexts that are listed and have no cluster, each with the file it is listed in, the
      environment it was classified as, and whether it is marked; by file and then by context. */
  lemma ScanMeans(files: seq<File>, d: Data, seen: seq<Key>, c: Candidate, i: nat, j: nat)
    ensures c in Scanned(files, d, seen) <==> IsListed(files, seen, c) && !HasCluster(d, c.key)
    ensures i < j < |Scanned(files, d, seen)| ==>
      var (a, b) := (Scanned(files, d, seen)[i], Scanned(files, d, seen)[j]);
      !Less(b.fileName, a.fileName) && (a.fileName == b.fileName ==> !Less(b.key.contextName, a.key.contextName))
  {
    ScannedAre(files, d, seen, c);
    if c in Candidates(files, d, seen) { FromTheListing(files, d, seen, c); }
    if IsListed(files, seen, c) && !HasCluster(d, c.key) {
      var f: nat, e: nat :| f < |files| && e < |files[f].contexts| && CandidateOf(files[f], e, seen) == c;
      ListedIsCandidate(files, d, seen, f, e);
    }
    CandidateOrder();
    StableSortSorts(Candidates(files, d, seen), CandidateLeq());
    hide StableSort, Candidates, IsListed, HasCluster;
    if i < j < |Scanned(files, d, seen)| {
      assert CandidateLeq()(Scanned(files, d, seen)[i], Scanned(files, d, seen)[j]);
      LessTrichotomy(Scanned(files, d, seen)[i].fileName, Scanned(files, d, seen)[j].fileName);
    }
  }

  lemma CandidateOrder()
    ensures TotalPreorder(CandidateLeq())
  {
    forall a: Candidate, b: Candidate ensures CandidateLeq()(a, b) || CandidateLeq()(b, a) {
      LessTrichotomy(a.fileName, b.fileName);
      LessTrichotomy(a.key.contextName, b.key.contextName);
    }
    forall a: Candidate, b: Candidate, c: Candidate | CandidateLeq()(a, b) && CandidateLeq()(b, c) ensures CandidateLeq()(a, c) {
      CandidatesInOrder(a, b, c);
    }
  }

  lemma CandidatesInOrder(a: Candidate, b: Candidate, c: Candidate)
    requires !CandidateLess(b, a) && !CandidateLess(c, b)
    ensures !CandidateLess(c, a)
  {
    var (x, y, z) := (a.fileName, b.fileName, c.fileName);
    var (p, q, r) := (a.key.contextName, b.key.contextName, c.key.contextName);
    LessTrichotomy(x, y);
    LessTrichotomy(y, z);
    LessTrichotomy(x, z);
    LessTrichotomy(p, q);
    LessTrichotomy(q, r);
    LessTrichotomy(p, r);
    if Less(x, y) && Less(y, z) { LessTransitive(x, y, z); }
    if Less(p, q) && Less(q, r) { LessTransitive(p, q, r); }
  }

  /** The cluster a candidate becomes: under the context's own name, in the environment it was classified as, of no
      customer and in no archive. */
  predicate MadeOf(record: Cluster, c: Candidate) {
    && record.kubeconfigRef == c.key.kubeconfigRef && record.contextName == c.key.contextName
    && record.name == TrimSpace(c.key.contextName) && record.kind == c.kind
    && record.customerId == record.customerName == "" && record.labels == None && !record.archived
  }

  /** Every cluster an import adds is made of one of its candidates, and every candidate is either added or reported as
      failed. */
  lemma {:induction false} ImportMeans(d: Data, candidates: seq<Candidate>, fate: nat -> Fate)
    ensures
      var p := Imported(d, candidates, fate);
      && d.clusters <= p.data.clusters && |p.data.clusters| == |d.clusters| + |p.added|
      && |p.added| + |p.failed| == |candidates|
      && (forall k :: 0 <= k < |p.added| ==> exists c :: c in candidates && c.key == p.added[k] && MadeOf(p.data.clusters[|d.clusters| + k], c))
      && (forall k :: k in p.failed ==> exists c :: c in candidates && c.key == k)
    decreases |candidates|
  {
    if candidates != [] {
      var init, c := candidates[..|candidates| - 1], candidates[|candidates| - 1];
      ImportMeans(d, init, fate);
      AttemptMeans(d, init, c, fate);
      assert candidates == init + [c];
    }
  }

  lemma AttemptMeans(d: Data, init: seq<Candidate>, c: Candidate, fate: nat -> Fate)
    ensures
      var (before, after) := (Imported(d, init, fate), Attempted(Imported(d, init, fate), c, fate(|init|)));
      || (after == before.(failed := before.failed + [c.key]))
      || (&& after.failed == before.failed && after.added == before.added + [c.key]
          && |after.data.clusters| == |before.data.clusters| + 1 && before.data.clusters <= after.data.clusters
          && MadeOf(after.data.clusters[|before.data.clusters|], c))
  {
    hide Imported, ValidInput, Taken;
    assert TrimSpace("") == "";
  }

  /** Forgetting a kubeconfig unmarks its contexts, unless a cluster still uses it, and touches nothing else. */
  lemma ForgottenMeans(s: State, ref: string, k: Key)
    ensures k in Forgotten(s, ref).seen <==>
      k in s.seen && (k.kubeconfigRef != ref || exists c :: c in s.data.clusters && c.kubeconfigRef == ref)
    ensures Forgotten(s, ref) == s.(seen := Forgotten(s, ref).seen)
  {
    SelectMember(s.seen, (x: Key) => x.kubeconfigRef != ref, k);
    if Uses(s.data.clusters, ref) {
      var i :| 0 <= i < |s.data.clusters| && s.data.clusters[i].kubeconfigRef == ref;
      assert s.data.clusters[i] in s.data.clusters;
    }
  }

  // ---- the code ----

  class Importer {
    const store: Store
    var seen: seq<Key>
    var enabled: bool

    constructor (store: Store)
      ensures this.store == store && seen == [] && enabled
    {
      this.store := store;
      seen, enabled := [], true;
    }

    method Scan(files: seq<File>) returns (candidates: seq<Candidate>)
      ensures candidates == Scanned(files, store.data, seen)
    {
      var existing: set<Key> := {};
      for i := 0 to |store.data.clusters|
        invariant forall k :: k in existing <==> exists j :: 0 <= j < i && ContextOf(store.data.clusters[j]) == k
      {
        existing := existing + {ContextOf(store.data.clusters[i])};
      }
      forall k ensures k in existing <==> HasCluster(store.data, k) { HasClusterIs(store.data, k); }
      candidates := [];
      for f := 0 to |files|
        invariant candidates == Candidates(files[..f], store.data, seen)
      {
        ghost var before := candidates;
        assert files[..f + 1][..f] == files[..f];
        var file := files[f];
        for e := 0 to |file.contexts|
          invariant candidates == before + CandidatesIn(file, e, store.data, seen)
        {
          var key := Key(file.ref, file.contexts[e].name);
          if key in existing { continue; }
          candidates := candidates + [Candidate(key, file.name, file.contexts[e].kind, key in seen)];
        }
      }
      assert files[..|files|] == files;
      candidates := StableSort(candidates, CandidateLeq());
    }

    method MarkSeen(candidates: seq<Candidate>, saved: bool)
      modifies this`seen
      ensures seen == if saved then Marked(old(seen), candidates) else old(seen)
    {
      if |candidates| == 0 || !saved { return; }
      for i := 0 to |candidates|
        invariant seen == Marked(old(seen), candidates[..i])
      {
        assert candidates[..i + 1][..i] == candidates[..i];
        if candidates[i].key in seen { continue; }
        seen := seen + [candidates[i].key];
      }
      assert candidates[..|candidates|] == candidates;
    }

    method Import(candidates: seq<Candidate>, fate: nat -> Fate, marked: bool) returns (added: seq<Key>, failed: seq<Key>)
      modifies this`seen, store
      ensures Progress(store.data, added, failed) == Imported(old(store.data), candidates, fate)
      ensures seen == if marked then Marked(old(seen), candidates) else old(seen)
    {
      added, failed := [], [];
      for i := 0 to |candidates|
        invariant seen == old(seen)
        invariant Progress(store.data, added, failed) == Imported(old(store.data), candidates[..i], fate)
      {
        assert candidates[..i + 1][..i] == candidates[..i];
        var outcome := fate(i);
        var ok := store.Create(InputOf(candidates[i]), outcome.id, outcome.now, outcome.saved);
        if !ok {
          failed := failed + [candidates[i].key];
          continue;
        }
        added := added + [candidates[i].key];
      }
      assert candidates[..|candidates|] == candidates;
      MarkSeen(candidates, marked);
    }

    /** Sync, keeping the record of what it ever made. */
    method Synchronise(files: seq<File>, fate: nat -> Fate, marked: bool, ghost made: seq<Key>) returns (added: seq<Key>)
      modifies this`seen, store
      ensures State(store.data, seen, enabled, made + added) ==
        After(old(State(store.data, seen, enabled, made)), Sync(files, fate, marked))
    {
      if !enabled {
        assert made + [] == made;
        return [];
      }
      var scanned := Scan(files);
      ghost var keep := Unseen();
      var offered: seq<Candidate> := [];
      for i := 0 to |scanned|
        invariant store.data == old(store.data) && seen == old(seen)
        invariant offered == Select(scanned[..i], keep)
      {
        SelectStep(scanned, keep, i);
        if !scanned[i].seen { offered := offered + [scanned[i]]; }
      }
      assert scanned[..|scanned|] == scanned;
      var failed;
      added, failed := Import(offered, fate, marked);
    }
  }

  function ContextOf(c: Cluster): Key {
    Key(c.kubeconfigRef, c.contextName)
  }

  lemma HasClusterIs(d: Data, k: Key)
    ensures HasCluster(d, k) <==> exists j :: 0 <= j < |d.clusters| && ContextOf(d.clusters[j]) == k
  {
    if HasCluster(d, k) {
      var i :| 0 <= i < |d.clusters| && d.clusters[i].kubeconfigRef == k.kubeconfigRef && d.clusters[i].contextName == k.contextName;
      assert ContextOf(d.clusters[i]) == k;
    }
  }
}
