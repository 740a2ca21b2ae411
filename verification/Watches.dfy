/** The watches of one cluster session (internal/kube/informer.go): a bounded set of running watches with
    least-recently-used eviction. Every method is one critical section under the hub's lock. */
module Watches {
  import opened Order

  const MAX_WATCHES := 16
  const WATCH_IDLE_TIMEOUT := 300  // seconds

  datatype WatchKey = WatchKey(gvr: string, namespace: string, labels: string, fields: string)

  /** An unfiltered watch over every namespace of a type. */
  function Wide(gvr: string): WatchKey {
    WatchKey(gvr, "", "", "")
  }

  predicate Unfiltered(key: WatchKey) {
    key.labels == "" && key.fields == ""
  }

  /** An unfiltered watch of a single namespace. */
  predicate Narrow(key: WatchKey) {
    Unfiltered(key) && key.namespace != ""
  }

  predicate Covers(have: WatchKey, want: WatchKey) {
    have == want || (Narrow(want) && have == Wide(want.gvr))
  }

  predicate Reaches(key: WatchKey, gvr: string, namespace: string) {
    key.gvr == gvr && (key.namespace == "" || key.namespace == namespace)
  }

  /** What a watch delivers: objects of its type, in its namespace or in any, that its selectors let through, whatever
      selectors mean; a selector that is not there lets everything through. */
  predicate Delivers(key: WatchKey, labelled: (string, nat) -> bool, fielded: (string, nat) -> bool, gvr: string, namespace: string, o: nat) {
    && Reaches(key, gvr, namespace)
    && (key.labels == "" || labelled(key.labels, o)) && (key.fields == "" || fielded(key.fields, o))
  }

  /** A watch that covers a request delivers every object the request asks for, whatever the selectors mean. */
  lemma CoveringDelivers(have: WatchKey, want: WatchKey, labelled: (string, nat) -> bool, fielded: (string, nat) -> bool,
                         gvr: string, namespace: string, o: nat)
    requires Covers(have, want) && Delivers(want, labelled, fielded, gvr, namespace, o)
    ensures Delivers(have, labelled, fielded, gvr, namespace, o)
  {
  }

  /** Among watches without selectors it is the other way round as well: one that delivers all that is asked for, in
      every namespace there might be, covers the request. */
  lemma UnfilteredCovers(have: WatchKey, want: WatchKey)
    requires Unfiltered(have) && Unfiltered(want)
    requires forall gvr, namespace :: namespace != "" && Reaches(want, gvr, namespace) ==> Reaches(have, gvr, namespace)
    ensures Covers(have, want)
  {
    var here := if want.namespace == "" then have.namespace + "x" else want.namespace;
    assert Reaches(want, want.gvr, here);
    assert |have.namespace + "x"| == |have.namespace| + 1;
  }

  class Watch {
    const key: WatchKey
    var stopped: bool
    var synced: bool

    constructor (key: WatchKey)
      ensures this.key == key && !stopped
    {
      this.key := key;
      stopped := false;
      synced := false;
    }

    /** Stopping twice is stopping once. */
    method Stop()
      modifies this`stopped
      ensures stopped
    {
      stopped := true;
    }
  }

  datatype Entry = Entry(watch: Watch, lastUsed: int)

  type WatchMap = map<WatchKey, Entry>

  /** `kept` is `base` with the least recently used watches taken out until at most `keep` remain. */
  ghost predicate Evicted(base: WatchMap, kept: WatchMap, keep: nat) {
    && kept.Keys <= base.Keys
    && (forall k :: k in kept ==> kept[k] == base[k])
    && |kept| == (if |base| <= keep then |base| else keep)
    && forall gone, stays :: gone in base && gone !in kept && stays in kept ==> base[gone].lastUsed <= base[stays].lastUsed
  }

  /** The watches an unfiltered cluster-wide watch of a type leaves standing. */
  function WithoutNarrow(watches: WatchMap, gvr: string): WatchMap {
    map k | k in watches && !(Narrow(k) && k.gvr == gvr) :: watches[k]
  }

  /** A cluster-wide watch of a type stops exactly the other watches it covers. */
  lemma RedundantExactly(watches: WatchMap, gvr: string, k: WatchKey)
    ensures k in WithoutNarrow(watches, gvr) <==> k in watches && (k == Wide(gvr) || !Covers(Wide(gvr), k))
    ensures k in WithoutNarrow(watches, gvr) ==> WithoutNarrow(watches, gvr)[k] == watches[k]
  {
  }

  ghost predicate Covered(watches: WatchMap, want: WatchKey) {
    exists k :: k in watches && Covers(k, want)
  }

  /** Only the time of use of a watch that covers the request changed. */
  ghost predicate Reused(before: WatchMap, after: WatchMap, want: WatchKey, w: Watch, now: int) {
    Covers(w.key, want) && w.key in before && before[w.key].watch == w && after == before[w.key := Entry(w, now)]
  }

  /** The request has a watch of its own; redundant and least recently used watches made room for it. */
  ghost predicate Started(before: WatchMap, after: WatchMap, want: WatchKey, w: Watch, now: int) {
    && want in after && after[want] == Entry(w, now)
    && Evicted(if want == Wide(want.gvr) then WithoutNarrow(before, want.gvr) else before, after - {want}, MAX_WATCHES - 1)
  }

  lemma SubmapSize<K, V>(a: map<K, V>, b: map<K, V>)
    requires a.Keys <= b.Keys
    ensures |a| <= |b|
  {
    SubsetSize(a.Keys, b.Keys);
  }

  lemma {:induction false} SubsetSize<T>(a: set<T>, b: set<T>)
    requires a <= b
    ensures |a| <= |b|
  {
    if a != {} {
      var x :| x in a;
      SubsetSize(a - {x}, b - {x});
    }
  }

  lemma PutThenTake(watches: WatchMap, key: WatchKey, entry: Entry)
    requires key !in watches
    ensures watches[key := entry] - {key} == watches
  {
  }

  class Registry {
    var watches: WatchMap
    var closed: bool
    ghost var created: set<Watch>

    /** At every moment: at most sixteen watches, none made redundant by a cluster-wide one, each created
        watch running exactly while it is in the map, and none left once the hub is closed. */
    ghost predicate Valid()
      reads this, created
    {
      && |watches| <= MAX_WATCHES
      && (forall k :: k in watches ==> watches[k].watch in created && watches[k].watch.key == k)
      && (forall w :: w in created ==> (w.stopped <==> !(w.key in watches && watches[w.key].watch == w)))
      && (forall k :: k in watches && Narrow(k) ==> Wide(k.gvr) !in watches)
      && (closed ==> watches == map[])
    }

    constructor ()
      ensures Valid() && !closed && watches == map[] && created == {}
    {
      watches := map[];
      closed := false;
      created := {};
    }

    /** Stops one watch and takes it out of the map. */
    method Discard(key: WatchKey)
      requires Valid() && key in watches
      modifies this`watches, created
      ensures Valid() && watches == old(watches) - {key}
      ensures forall w :: w in created ==> w.synced == old(w.synced)
    {
      watches[key].watch.Stop();
      SubmapSize(watches - {key}, watches);
      watches := watches - {key};
    }

    /** Watches go, the one used longest ago first, until no more than `keep` are left. */
    method Evict(keep: nat)
      requires Valid()
      modifies this`watches, created
      ensures Valid() && Evicted(old(watches), watches, keep)
    {
      while |watches| > keep
        invariant Valid()
        invariant watches.Keys <= old(watches).Keys && forall k :: k in watches ==> watches[k] == old(watches)[k]
        invariant |watches| == |old(watches)| || |watches| >= keep
        invariant forall gone, stays :: gone in old(watches) && gone !in watches && stays in watches ==>
                    old(watches)[gone].lastUsed <= old(watches)[stays].lastUsed
        decreases |watches|
      {
        var oldest := Oldest();
        Discard(oldest);
      }
      SubmapSize(watches, old(watches));
    }

    /** A watch no other has been unread for longer than. */
    method Oldest() returns (oldest: WatchKey)
      requires watches != map[]
      ensures oldest in watches && forall k :: k in watches ==> watches[oldest].lastUsed <= watches[k].lastUsed
    {
      var rest := watches.Keys;
      oldest :| oldest in rest;
      rest := rest - {oldest};
      while rest != {}
        invariant oldest in watches && rest <= watches.Keys
        invariant forall k :: k in watches && k !in rest ==> watches[oldest].lastUsed <= watches[k].lastUsed
        decreases rest
      {
        var k :| k in rest;
        if watches[k].lastUsed < watches[oldest].lastUsed { oldest := k; }
        rest := rest - {k};
      }
    }

    /** Stops the single-namespace watches of a type that a cluster-wide one makes redundant. */
    method DiscardNarrow(gvr: string)
      requires Valid()
      modifies this`watches, created
      ensures Valid() && watches == WithoutNarrow(old(watches), gvr)
    {
      var rest := watches.Keys;
      while rest != {}
        invariant Valid() && rest <= watches.Keys
        invariant watches.Keys <= old(watches).Keys && forall k :: k in watches ==> watches[k] == old(watches)[k]
        invariant forall k :: k in old(watches) && k !in watches ==> Narrow(k) && k.gvr == gvr
        invariant forall k :: k in watches && k !in rest ==> !(Narrow(k) && k.gvr == gvr)
        decreases rest
      {
        var candidate :| candidate in rest;
        rest := rest - {candidate};
        if candidate.gvr == gvr && candidate.namespace != "" && candidate.labels == "" && candidate.fields == "" {
          Discard(candidate);
        }
      }
    }

    /** Starts a watch if none covers the request, and returns one that does. */
    method Ensure(gvr: string, namespace: string, labels: string, fields: string, now: int) returns (watch: Watch?)
      requires Valid()
      modifies this`watches, this`created, created
      ensures Valid() && closed == old(closed)
      ensures closed ==> watch == null && watches == old(watches) && created == old(created)
      ensures !closed ==> watch != null && watch in created && !watch.stopped && Covers(watch.key, WatchKey(gvr, namespace, labels, fields))
      ensures !closed ==> var want := WatchKey(gvr, namespace, labels, fields);
        if Covered(old(watches), want) then created == old(created) && Reused(old(watches), watches, want, watch, now)
        else fresh(watch) && created == old(created) + {watch} && Started(old(watches), watches, want, watch, now)
    {
      var key := WatchKey(gvr, namespace, labels, fields);
      if closed { return null; }
      var scoped := labels != "" || fields != "";
      if !scoped && namespace != "" {
        if Wide(gvr) in watches {
          watch := Touch(Wide(gvr), now);
          return;
        }
      }
      if key in watches {
        watch := Touch(key, now);
        return;
      }
      watch := Start(key, now);
    }

    method Touch(key: WatchKey, now: int) returns (watch: Watch)
      requires Valid() && key in watches
      modifies this`watches
      ensures Valid() && watch == old(watches)[key].watch && watches == old(watches)[key := Entry(watch, now)]
      ensures watch in created && !watch.stopped && watch.key == key
    {
      watch := watches[key].watch;
      assert old(watches).Keys == old(watches).Keys + {key};
      watches := watches[key := Entry(watch, now)];
    }

    /** The second half of Ensure: room is made and a new watch takes its place. */
    method Start(key: WatchKey, now: int) returns (watch: Watch)
      requires Valid() && !closed && !Covered(watches, key)
      modifies this`watches, this`created, created
      ensures Valid() && fresh(watch) && created == old(created) + {watch}
      ensures !watch.stopped && watch.key == key && Started(old(watches), watches, key, watch, now)
    {
      assert Covers(key, key) && (Narrow(key) ==> Covers(Wide(key.gvr), key));
      assert key !in watches && (Narrow(key) ==> Wide(key.gvr) !in watches);
      hide Covers;
      MakeRoom(key);
      hide Evicted, WithoutNarrow;
      ghost var kept := watches;
      watch := Install(key, now);
      PutThenTake(kept, key, Entry(watch, now));
    }

    method MakeRoom(key: WatchKey)
      requires Valid()
      modifies this`watches, created
      ensures Valid() && watches.Keys <= old(watches).Keys && |watches| <= MAX_WATCHES - 1
      ensures key == Wide(key.gvr) ==> forall k :: k in watches && Narrow(k) ==> k.gvr != key.gvr
      ensures Evicted(if key == Wide(key.gvr) then WithoutNarrow(old(watches), key.gvr) else old(watches), watches, MAX_WATCHES - 1)
    {
      if Unfiltered(key) && key.namespace == "" {
        DiscardNarrow(key.gvr);
      }
      Evict(MAX_WATCHES - 1);
    }

    method Install(key: WatchKey, now: int) returns (watch: Watch)
      requires Valid() && !closed && key !in watches && |watches| < MAX_WATCHES
      requires Narrow(key) ==> Wide(key.gvr) !in watches
      requires key == Wide(key.gvr) ==> forall k :: k in watches && Narrow(k) ==> k.gvr != key.gvr
      modifies this`watches, this`created
      ensures Valid() && fresh(watch) && created == old(created) + {watch}
      ensures !watch.stopped && watch.key == key && watches == old(watches)[key := Entry(watch, now)]
    {
      watch := new Watch(key);
      created := created + {watch};
      watches := watches[key := Entry(watch, now)];
      assert watches.Keys == old(watches).Keys + {key};
      forall k | k in watches ensures watches[k].watch in created && watches[k].watch.key == k {
        assert k != key ==> k in old(watches);
      }
      forall k | k in watches && Narrow(k) ensures Wide(k.gvr) !in watches {
        if k != key { assert k in old(watches); }
      }
      forall w | w in created ensures w.stopped <==> !(w.key in watches && watches[w.key].watch == w) {
        if w != watch {
          assert w.stopped == old(w.stopped);
          assert w.key != key ==> (w.key in watches <==> w.key in old(watches));
        }
      }
    }

    /** A running watch that has finished its first list, or none; only its time of use changes. */
    method Existing(gvr: string, namespace: string, labels: string, fields: string, now: int) returns (watch: Watch?)
      requires Valid()
      modifies this`watches
      ensures Valid()
      ensures watch != null ==> watch in created && !watch.stopped && watch.synced && Covers(watch.key, WatchKey(gvr, namespace, labels, fields))
      ensures watch != null ==> watches == old(watches)[watch.key := Entry(watch, now)]
      ensures watch == null ==> watches == old(watches)
      ensures watch == null ==> forall k :: k in watches && Covers(k, WatchKey(gvr, namespace, labels, fields)) ==> !watches[k].watch.synced
    {
      var exact := WatchKey(gvr, namespace, labels, fields);
      if exact in watches && watches[exact].watch.synced {
        watch := Touch(exact, now);
        return;
      }
      if labels != "" || fields != "" { return null; }
      if Wide(gvr) in watches && watches[Wide(gvr)].watch.synced {
        watch := Touch(Wide(gvr), now);
        return;
      }
      return null;
    }

    /** Ends the watches of a namespace the user has left. */
    method StopNamespace(namespace: string)
      requires Valid()
      modifies this`watches, created
      ensures Valid()
      ensures watches == if namespace == "" then old(watches) else map k | k in old(watches) && k.namespace != namespace :: old(watches)[k]
    {
      if namespace == "" { return; }
      var rest := watches.Keys;
      while rest != {}
        invariant Valid() && rest <= watches.Keys
        invariant watches.Keys <= old(watches).Keys && forall k :: k in watches ==> watches[k] == old(watches)[k]
        invariant forall k :: k in old(watches) && k !in watches ==> k.namespace == namespace
        invariant forall k :: k in watches && k !in rest ==> k.namespace != namespace
        decreases rest
      {
        var key :| key in rest;
        rest := rest - {key};
        if key.namespace == namespace { Discard(key); }
      }
    }

    /** One tick of the idle sweep: watches nobody has read for a while are stopped. */
    method Sweep(now: int)
      requires Valid()
      modifies this`watches, created
      ensures Valid()
      ensures watches == map k | k in old(watches) && old(watches)[k].lastUsed >= now - WATCH_IDLE_TIMEOUT :: old(watches)[k]
    {
      var cutoff := now - WATCH_IDLE_TIMEOUT;
      var rest := watches.Keys;
      while rest != {}
        invariant Valid() && rest <= watches.Keys
        invariant watches.Keys <= old(watches).Keys && forall k :: k in watches ==> watches[k] == old(watches)[k]
        invariant forall k :: k in old(watches) && k !in watches ==> old(watches)[k].lastUsed < cutoff
        invariant forall k :: k in watches && k !in rest ==> watches[k].lastUsed >= cutoff
        decreases rest
      {
        var key :| key in rest;
        rest := rest - {key};
        if watches[key].lastUsed < cutoff { Discard(key); }
      }
    }

    /** Stops every watch for good. */
    method CloseWatches()
      requires Valid()
      modifies this`watches, this`closed, created
      ensures Valid() && closed && watches == map[]
      ensures forall w :: w in created ==> w.stopped
    {
      if closed { return; }
      while watches != map[]
        invariant Valid()
        decreases |watches|
      {
        var key :| key in watches;
        Discard(key);
      }
      closed := true;
    }
  }
}
