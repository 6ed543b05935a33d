/**
 * The node side: the device plugin hands claims to containers and records them in CDI specs, the
 * watcher reads the specs back and releases what they record. Calls on one node are serialized.
 */
module NodeAgent {
  import opened Claims
  import opened Sums
  import opened CdiRecords

  /** A claim as the annotation of a CDI device stores it. */
  datatype Entry = Entry(key: Key, claim: Claim)

  /** `annotation` is None when the device carries none, or one that does not parse. */
  datatype Device = Device(annotation: Option<seq<Entry>>, env: seq<string>)

  /** `kind` stands for the CDI kind of the resource; it names the profile. */
  datatype Spec = Spec(kind: string, devices: seq<Device>)

  type Specs = map<string, Spec>

  // ---- what a spec records ----

  function DeviceKeys(d: Device): set<Key> {
    if d.annotation.None? then {} else set e | e in d.annotation.value :: e.key
  }

  function DeviceUuids(d: Device, hardware: bool): set<string> {
    if !hardware || d.annotation.None? || VisibleDevices(d.env) == "" then {}
    else set u | u in Split(VisibleDevices(d.env))
  }

  /** The claims the watcher deletes when the spec goes. */
  function RecordedKeys(s: Spec): set<Key> {
    set d, k | d in s.devices && k in DeviceKeys(d) :: k
  }

  /** The MIG slices the watcher destroys when the spec goes; none in emulated mode. */
  function RecordedUuids(s: Spec, hardware: bool): set<string> {
    set d, u | d in s.devices && u in DeviceUuids(d, hardware) :: u
  }

  function SetPhases(m: ClaimMap, ks: set<Key>, phase: Phase): ClaimMap {
    map k | k in m :: if k in ks then m[k].(phase := phase) else m[k]
  }

  // ---- the books ----

  /** The claims of this node that are in use. */
  function InUseOn(m: ClaimMap, node: string): set<Key> {
    set k | k in m && m[k].phase == InUse && m[k].node == node
  }

  function InUseOf(m: ClaimMap, node: string, profile: string): set<Key> {
    set k | k in m && m[k].phase == InUse && m[k].node == node && m[k].profile == profile
  }

  /** Different specs record different claims and different slices. */
  predicate Disjoint(ledger: Specs, hardware: bool) {
    forall p, q :: p in ledger && q in ledger && p != q ==>
      && RecordedKeys(ledger[p]) !! RecordedKeys(ledger[q])
      && RecordedUuids(ledger[p], hardware) !! RecordedUuids(ledger[q], hardware)
  }

  /** Whatever a spec records is there: its claims are in use on the node, of the spec's profile, its slices exist. */
  predicate Backed(ledger: Specs, store: ClaimMap, slices: set<string>, node: string, hardware: bool) {
    forall p :: p in ledger ==>
      RecordedKeys(ledger[p]) <= InUseOf(store, node, ledger[p].kind) && RecordedUuids(ledger[p], hardware) <= slices
  }

  /** Whatever is there is recorded: every slice, and every claim in use on the node. */
  ghost predicate Complete(ledger: Specs, store: ClaimMap, slices: set<string>, node: string, hardware: bool) {
    && (forall u :: u in slices ==> exists p :: p in ledger && u in RecordedUuids(ledger[p], hardware))
    && (forall k :: k in InUseOn(store, node) ==> exists p :: p in ledger && k in RecordedKeys(ledger[p]))
  }

  ghost predicate Balanced(ledger: Specs, store: ClaimMap, slices: set<string>, node: string, hardware: bool) {
    Disjoint(ledger, hardware) && Backed(ledger, store, slices, node, hardware)
  }

  /** Writing a spec for resources nobody records yet keeps the books. */
  lemma WriteKeepsBooks(ledger: Specs, store: ClaimMap, slices: set<string>, node: string, hardware: bool,
                        path: string, spec: Spec,
                        store': ClaimMap, slices': set<string>)
    requires Balanced(ledger, store, slices, node, hardware) && path !in ledger
    requires forall p :: p in ledger ==>
      && RecordedKeys(ledger[p]) !! RecordedKeys(spec)
      && RecordedUuids(ledger[p], hardware) !! RecordedUuids(spec, hardware)
    requires forall k :: k in InUseOn(store, node) ==> k in store' && store'[k] == store[k]
    requires slices <= slices' && RecordedUuids(spec, hardware) <= slices'
    requires RecordedKeys(spec) <= InUseOf(store', node, spec.kind)
    ensures Balanced(ledger[path := spec], store', slices', node, hardware)
  {
    hide RecordedKeys, RecordedUuids;
    var ledger' := ledger[path := spec];
    forall p | p in ledger'
      ensures RecordedKeys(ledger'[p]) <= InUseOf(store', node, ledger'[p].kind)
      ensures RecordedUuids(ledger'[p], hardware) <= slices'
    {
      if p != path {
        forall k | k in RecordedKeys(ledger[p])
          ensures k in InUseOf(store', node, ledger[p].kind)
        {
          assert k in InUseOf(store, node, ledger[p].kind);
          assert k in InUseOn(store, node);
        }
      }
    }
  }

  /** Releasing exactly what a spec records keeps the books, complete or not. */
  lemma ReleaseKeepsBooks(ledger: Specs, store: ClaimMap, slices: set<string>, node: string, hardware: bool,
                          path: string)
    requires Balanced(ledger, store, slices, node, hardware) && path in ledger
    ensures var store', slices' := store - RecordedKeys(ledger[path]), slices - RecordedUuids(ledger[path], hardware);
      && Balanced(ledger - {path}, store', slices', node, hardware)
      && (Complete(ledger, store, slices, node, hardware) ==>
            Complete(ledger - {path}, store', slices', node, hardware))
  {
    hide RecordedKeys, RecordedUuids;
    var ledger', gone := ledger - {path}, ledger[path];
    var store', slices' := store - RecordedKeys(gone), slices - RecordedUuids(gone, hardware);
    forall p | p in ledger'
      ensures RecordedKeys(ledger'[p]) <= InUseOf(store', node, ledger'[p].kind)
      ensures RecordedUuids(ledger'[p], hardware) <= slices'
    {
      assert RecordedKeys(ledger[p]) !! RecordedKeys(gone);
      assert RecordedUuids(ledger[p], hardware) !! RecordedUuids(gone, hardware);
      forall k | k in RecordedKeys(ledger[p])
        ensures k in InUseOf(store', node, ledger[p].kind)
      {
        assert k in InUseOf(store, node, ledger[p].kind);
      }
    }
    if Complete(ledger, store, slices, node, hardware) {
      ReleaseKeepsComplete(ledger, store, slices, node, hardware, path);
    }
  }

  lemma ReleaseKeepsComplete(ledger: Specs, store: ClaimMap, slices: set<string>, node: string, hardware: bool,
                             path: string)
    requires Complete(ledger, store, slices, node, hardware) && path in ledger
    ensures Complete(ledger - {path}, store - RecordedKeys(ledger[path]),
                     slices - RecordedUuids(ledger[path], hardware), node, hardware)
  {
    hide RecordedKeys, RecordedUuids;
    var ledger', gone := ledger - {path}, ledger[path];
    var store', slices' := store - RecordedKeys(gone), slices - RecordedUuids(gone, hardware);
    forall u | u in slices'
      ensures exists p :: p in ledger' && u in RecordedUuids(ledger'[p], hardware)
    {
      var p :| p in ledger && u in RecordedUuids(ledger[p], hardware);
      assert p in ledger' && u in RecordedUuids(ledger'[p], hardware);
    }
    forall k | k in InUseOn(store', node)
      ensures exists p :: p in ledger' && k in RecordedKeys(ledger'[p])
    {
      assert k in InUseOn(store, node);
      var p :| p in ledger && k in RecordedKeys(ledger[p]);
      assert p in ledger' && k in RecordedKeys(ledger'[p]);
    }
  }

  // ---- what Allocate writes ----

  function Entries(keys: seq<Key>, m: ClaimMap): (es: seq<Entry>)
    requires forall k :: k in keys ==> k in m
    ensures |es| == |keys| && forall i :: 0 <= i < |keys| ==> es[i] == Entry(keys[i], m[keys[i]])
  {
    seq(|keys|, i requires 0 <= i < |keys| => Entry(keys[i], m[keys[i]]))
  }

  /** The spec of one container: its claims in the annotation, its devices in the environment. */
  function ContainerSpec(kind: string, entries: seq<Entry>, vals: seq<string>): Spec {
    Spec(kind, [Device(if entries == [] then None else Some(entries),
                       SpecEnv(if vals == [] then "" else VISIBLE + Join(vals)))])
  }

  function KeysOf(entries: seq<Entry>): set<Key> {
    set e | e in entries :: e.key
  }

  function SetOf(xs: seq<string>): set<string> {
    set x | x in xs
  }

  /**
   * Created and removed resources are inverse: what the watcher reads out of a spec is exactly what
   * Allocate put in, the claims it handed out and the UUIDs of the slices it created.
   */
  lemma SpecRoundTrip(kind: string, entries: seq<Entry>, uuids: seq<string>, hardware: bool)
    requires entries != [] && uuids != [] && CommaFree(uuids) && forall i :: 0 <= i < |uuids| ==> uuids[i] != ""
    ensures RecordedKeys(ContainerSpec(kind, entries, uuids)) == KeysOf(entries)
    ensures RecordedUuids(ContainerSpec(kind, entries, uuids), hardware) == (if hardware then SetOf(uuids) else {})
  {
    var spec := ContainerSpec(kind, entries, uuids);
    var d := spec.devices[0];
    EnvRoundTrip(uuids);
    assert DeviceKeys(d) == KeysOf(entries) && DeviceUuids(d, hardware) == if hardware then SetOf(uuids) else {};
    assert spec.devices == [d];
    assert forall k :: k in DeviceKeys(d) ==> k in RecordedKeys(spec);
    assert forall u :: u in DeviceUuids(d, hardware) ==> u in RecordedUuids(spec, hardware);
  }

  /** A container served without claims records nothing. */
  lemma UnclaimedRecordsNothing(kind: string, vals: seq<string>, hardware: bool)
    ensures RecordedKeys(ContainerSpec(kind, [], vals)) == {}
    ensures RecordedUuids(ContainerSpec(kind, [], vals), hardware) == {}
  {
  }

  /** Writing the spec of everything that was newly taken keeps the books complete. */
  lemma WriteKeepsComplete(ledger: Specs, store: ClaimMap, slices: set<string>, node: string, hardware: bool,
                           path: string, spec: Spec,
                           store': ClaimMap, slices': set<string>)
    requires Complete(ledger, store, slices, node, hardware) && path !in ledger
    requires slices' <= slices + RecordedUuids(spec, hardware)
    requires InUseOn(store', node) <= InUseOn(store, node) + RecordedKeys(spec)
    ensures Complete(ledger[path := spec], store', slices', node, hardware)
  {
    hide RecordedKeys, RecordedUuids, InUseOn;
    var ledger' := ledger[path := spec];
    forall u | u in slices'
      ensures exists p :: p in ledger' && u in RecordedUuids(ledger'[p], hardware)
    {
      if u in RecordedUuids(spec, hardware) {
        assert path in ledger' && ledger'[path] == spec;
      } else {
        var p :| p in ledger && u in RecordedUuids(ledger[p], hardware);
        assert p in ledger' && ledger'[p] == ledger[p];
      }
    }
    forall k | k in InUseOn(store', node)
      ensures exists p :: p in ledger' && k in RecordedKeys(ledger'[p])
    {
      if k in RecordedKeys(spec) {
        assert path in ledger' && ledger'[path] == spec;
      } else {
        var p :| p in ledger && k in RecordedKeys(ledger[p]);
        assert p in ledger' && ledger'[p] == ledger[p];
      }
    }
  }

  // ---- the agent ----

  /** Where the daemon's index knows a live claim, it knows it as it is. */
  predicate InSync(index: ClaimMap, store: ClaimMap) {
    forall k :: k in index && k in store ==> index[k] == store[k]
  }

  function Asked(ids: seq<string>): nat {
    if ids == [] then 1 else |ids|
  }

  /** Device ids asked for by the first n containers; an empty list asks for one. */
  function Total(requests: seq<seq<string>>, n: nat): nat
    requires n <= |requests|
  {
    if n == 0 then 0 else Total(requests, n - 1) + Asked(requests[n - 1])
  }

  lemma {:induction false} TotalMonotone(requests: seq<seq<string>>, i: nat, n: nat)
    requires i <= n <= |requests|
    ensures Total(requests, i) <= Total(requests, n)
  {
    if i < n { TotalMonotone(requests, i, n - 1); }
  }

  lemma SetPhasesTwice(m: ClaimMap, a: set<Key>, k: Key, phase: Phase)
    requires k in m
    ensures SetPhases(m, {k}, phase) == m[k := m[k].(phase := phase)]
    ensures k in SetPhases(m, a, phase)
    ensures SetPhases(m, a, phase)[k := SetPhases(m, a, phase)[k].(phase := phase)] == SetPhases(m, a + {k}, phase)
  {
  }

  /** What a fetch promises about the claims it hands out. */
  predicate Fetchable(m: ClaimMap, keys: seq<Key>, node: string, profile: string) {
    forall k :: k in keys ==> k in m && m[k].phase == Created && m[k].node == node && m[k].profile == profile
  }

  /** The created claims of a profile on the node. */
  function Available(m: ClaimMap, node: string, profile: string): set<Key> {
    set k | k in m && m[k].phase == Created && m[k].node == node && m[k].profile == profile
  }

  lemma AvailableIs(m: ClaimMap, node: string, profile: string)
    ensures Available(m, node, profile) ==
            set k | k in m && m[k].phase == Created && m[k].node == node && m[k].profile == profile
    ensures Available(m, node, profile) <= m.Keys
  {
  }

  /** Claims that were handed out are past created, for good. */
  predicate PastCreated(given: set<Key>, m: ClaimMap) {
    forall k :: k in given && k in m ==> m[k].phase.Rank() >= 3
  }

  /** Files and cache hold specs as written; a file that is gone is out of the cache or has an event pending. */
  predicate FilesInOrder(disk: Specs, cache: Specs, ledger: Specs, events: seq<string>) {
    && (forall p :: p in disk ==> p in ledger && ledger[p] == disk[p])
    && (forall p :: p in cache ==> p in ledger && ledger[p] == cache[p])
    && (forall p :: p in events ==> p !in disk)
    && (forall p :: p in cache ==> p in disk || p in events)
    && NoDuplicates(events)
  }

  /** Every spec not released yet has its file, or was cached before the file went and has its event pending. */
  ghost predicate TrackedIn(disk: Specs, cache: Specs, ledger: Specs, events: seq<string>) {
    (forall p :: p in ledger <==> p in disk || p in events) && (forall p :: p in events ==> p in cache)
  }

  lemma NoEventsAllOnDisk(disk: Specs, cache: Specs, ledger: Specs)
    requires FilesInOrder(disk, cache, ledger, []) && TrackedIn(disk, cache, ledger, [])
    ensures disk == ledger
  {
  }

  lemma WriteKeepsFiles(disk: Specs, cache: Specs, ledger: Specs, events: seq<string>, path: string, spec: Spec)
    requires FilesInOrder(disk, cache, ledger, events) && path !in ledger && path !in events
    ensures FilesInOrder(disk[path := spec], cache, ledger[path := spec], events)
    ensures TrackedIn(disk, cache, ledger, events) ==>
      TrackedIn(disk[path := spec], cache, ledger[path := spec], events)
  {
  }

  lemma RemoveKeepsFiles(disk: Specs, cache: Specs, ledger: Specs, events: seq<string>, path: string)
    requires FilesInOrder(disk, cache, ledger, events) && path !in disk
    ensures FilesInOrder(disk, cache - {path}, ledger - {path}, events)
    ensures path !in cache ==> FilesInOrder(disk, cache - {path}, ledger, events)
    ensures path in cache ==> path in ledger && ledger[path] == cache[path]
  {
  }

  lemma HandledKeepsFiles(disk: Specs, cache: Specs, ledger: Specs, events: seq<string>, ledger': Specs)
    requires FilesInOrder(disk, cache, ledger, events) && events != []
    requires ledger' == if events[0] in cache then ledger - {events[0]} else ledger
    ensures events[0] !in disk && FilesInOrder(disk, cache - {events[0]}, ledger', events[1..])
    ensures TrackedIn(disk, cache, ledger, events) ==> TrackedIn(disk, cache - {events[0]}, ledger', events[1..])
  {
    assert forall p :: p in events <==> p == events[0] || p in events[1..];
  }

  /** Every annotation entry holds a claim of the pod its name was built from. */
  predicate KeyedSpec(s: Spec) {
    forall d, e :: d in s.devices && d.annotation.Some? && e in d.annotation.value ==> e.claim.pod == e.key.pod
  }

  /** Claims and annotation entries belong to the pod and node in their names. */
  predicate NamesMatch(store: ClaimMap, index: ClaimMap, ledger: Specs) {
    Keyed(store) && Keyed(index) && forall p :: p in ledger ==> KeyedSpec(ledger[p])
  }

  lemma NamesPhases(store: ClaimMap, index: ClaimMap, ledger: Specs, ks: set<Key>, phase: Phase)
    requires NamesMatch(store, index, ledger)
    ensures NamesMatch(SetPhases(store, ks, phase), SetPhases(index, ks, phase), ledger)
  {
    hide KeyedSpec;
  }

  lemma NamesWrite(store: ClaimMap, index: ClaimMap, ledger: Specs, path: string, spec: Spec)
    requires NamesMatch(store, index, ledger) && KeyedSpec(spec)
    ensures NamesMatch(store, index, ledger[path := spec])
  {
    hide KeyedSpec, Keyed;
  }

  lemma NamesDrop(store: ClaimMap, index: ClaimMap, ledger: Specs, ks: set<Key>, ps: set<string>)
    requires NamesMatch(store, index, ledger)
    ensures NamesMatch(store - ks, index, ledger - ps) && NamesMatch(store - ks, index - ks, ledger)
    ensures NamesMatch(store, index, ledger - ps)
  {
    hide KeyedSpec;
  }

  lemma IndexIsKeyed(store: ClaimMap, index: ClaimMap, ledger: Specs)
    requires NamesMatch(store, index, ledger)
    ensures Keyed(index)
  {
  }

  lemma KeyedContainer(kind: string, keys: seq<Key>, index: ClaimMap, vals: seq<string>)
    requires Keyed(index) && forall k :: k in keys ==> k in index
    ensures KeyedSpec(ContainerSpec(kind, Entries(keys, index), vals))
  {
    var s := ContainerSpec(kind, Entries(keys, index), vals);
    assert s.devices == [s.devices[0]];
  }

  lemma KeyedUnclaimed(kind: string, vals: seq<string>)
    ensures KeyedSpec(ContainerSpec(kind, [], vals))
  {
  }

  /** The spec records a claim of the pod exactly when one of its claim names is the pod's. */
  lemma MentionsByName(s: Spec, pod: string)
    requires KeyedSpec(s)
    ensures Mentions(s, pod) <==> exists k :: k in RecordedKeys(s) && k.pod == pod
  {
    if Mentions(s, pod) {
      var i :| 0 <= i < |s.devices| && DeviceMentions(s.devices[i], pod);
      var j :| 0 <= j < |s.devices[i].annotation.value| && s.devices[i].annotation.value[j].claim.pod == pod;
      var e := s.devices[i].annotation.value[j];
      assert s.devices[i] in s.devices && e in s.devices[i].annotation.value && e.key in DeviceKeys(s.devices[i]);
      assert e.key in RecordedKeys(s);
    }
    if k :| k in RecordedKeys(s) && k.pod == pod {
      var d :| d in s.devices && k in DeviceKeys(d);
      var e :| e in d.annotation.value && e.key == k;
      var i :| 0 <= i < |s.devices| && s.devices[i] == d;
      var j :| 0 <= j < |d.annotation.value| && d.annotation.value[j] == e;
      assert DeviceMentions(s.devices[i], pod);
    }
  }

  /** The claims are ready to be handed out for the profile. */
  predicate ReadyIn(index: ClaimMap, keys: seq<Key>, node: string, profile: string) {
    && NoDuplicates(keys)
    && forall k :: k in keys ==>
         k in index && index[k].phase == Processing && index[k].node == node && index[k].profile == profile
  }

  /** The same claims; each is unchanged, or promoted before and now further, at the same placement. */
  predicate Onward(before: ClaimMap, after: ClaimMap) {
    && before.Keys == after.Keys
    && forall k :: k in before ==>
         || after[k] == before[k]
         || (2 <= before[k].phase.Rank() < after[k].phase.Rank() && after[k] == before[k].(phase := after[k].phase))
  }

  lemma OnwardTrans(a: ClaimMap, b: ClaimMap, c: ClaimMap)
    requires Onward(a, b) && Onward(b, c)
    ensures Onward(a, c)
  {
  }

  lemma OnwardTake(m: ClaimMap, ks: set<Key>)
    requires forall k :: k in ks && k in m ==> m[k].phase == Created
    ensures Onward(m, SetPhases(m, ks, Processing))
  {
  }

  lemma OnwardUse(m: ClaimMap, ks: set<Key>)
    requires forall k :: k in ks && k in m ==> m[k].phase == Processing
    ensures Onward(m, SetPhases(m, ks, InUse))
  {
  }

  /** Two rounds of marking are one, and marking in use overrides processing. */
  lemma SetPhasesJoin(m: ClaimMap, a: set<Key>, b: set<Key>)
    ensures SetPhases(SetPhases(m, a, InUse), b, InUse) == SetPhases(m, a + b, InUse)
    ensures SetPhases(SetPhases(m, a, Processing), a, InUse) == SetPhases(m, a, InUse)
  {
  }

  lemma KeysJoin(ks: seq<Key>, a: nat, b: nat)
    requires a <= b <= |ks|
    ensures Keys(ks[..a]) + Keys(ks[a..b]) == Keys(ks[..b])
  {
    assert ks[..b] == ks[..a] + ks[a..b];
  }

  class Agent {
    const node: string
    const hardware: bool              // false in emulated mode
    var store: ClaimMap               // AllocationClaims in the API server
    var index: ClaimMap               // the daemon's informer cache
    var disk: Specs                   // CDI spec files
    var cache: Specs                  // the watcher's CDICache
    var slices: set<string>           // MIG slices on the node's GPUs
    var events: seq<string>           // remove events not yet handled
    ghost var ledger: Specs           // specs written whose resources have not been released
    ghost var given: set<Key>         // every claim ever handed to a container

    ghost predicate Valid()
      reads this
    {
      && Balanced(ledger, store, slices, node, hardware) && InSync(index, store)
      && FilesInOrder(disk, cache, ledger, events)
      && PastCreated(given, index) && PastCreated(given, store)
      && NamesMatch(store, index, ledger)
    }

    /** A node nothing has been allocated on yet. */
    constructor (node: string, hardware: bool, store: ClaimMap)
      requires InUseOn(store, node) == {} && Keyed(store)
      ensures Valid() && AllRecorded() && Tracked() && this.node == node && this.hardware == hardware
      ensures this.store == store == index
      ensures disk == cache == ledger == map[] && events == [] && given == {} && slices == {}
    {
      this.node, this.hardware, this.store, this.index := node, hardware, store, store;
      disk, cache, slices, events := map[], map[], {}, [];
      ledger, given := map[], {};
    }

    ghost predicate Tracked()
      reads this
    {
      TrackedIn(disk, cache, ledger, events)
    }

    ghost predicate AllRecorded()
      reads this
    {
      Complete(ledger, store, slices, node, hardware)
    }

    /** The lookup by node and profile: the first `count` created claims in index order, or all there are. */
    method SelectCreated(profile: string, count: nat) returns (keys: seq<Key>)
      ensures NoDuplicates(keys) && Fetchable(index, keys, node, profile)
      ensures |keys| == if |Available(index, node, profile)| < count then |Available(index, node, profile)| else count
    {
      keys := [];
      var todo := set k | k in index && index[k].node == node && index[k].profile == profile;
      while todo != {} && |keys| < count
        invariant todo <= index.Keys && forall k :: k in todo ==> index[k].node == node && index[k].profile == profile
        invariant |keys| <= count && NoDuplicates(keys) && Fetchable(index, keys, node, profile)
        invariant forall k :: k in keys ==> k !in todo
        invariant forall k :: k in Available(index, node, profile) ==> k in keys || k in todo
        decreases |todo|
      {
        var k :| k in todo;
        if index[k].phase == Created {
          keys := keys + [k];
        }
        todo := todo - {k};
      }
      SelectedAll(keys, Available(index, node, profile));
    }

    /**
     * getAllocationsByNodeGPU: either exactly `count` claims, all moved to processing, or none. On
     * failure some created claims may have been moved to processing all the same.
     */
    method FetchClaims(profile: string, count: nat) returns (r: Option<seq<Key>>, ghost moved: set<Key>)
      requires InSync(index, store)
      modifies this`store, this`index
      ensures InSync(index, store) && forall k :: k in moved ==> k in old(index) && old(index)[k].phase == Created
      ensures store == SetPhases(old(store), moved, Processing) && index == SetPhases(old(index), moved, Processing)
      ensures r.Some? ==> (
        && count > 0 && |r.value| == count && NoDuplicates(r.value) && moved == Keys(r.value)
        && Fetchable(old(index), r.value, node, profile) && Fetchable(old(store), r.value, node, profile))
      ensures r.Some? <==> 0 < count <= old(|Available(index, node, profile)|) && moved <= old(store).Keys
      ensures moved <= old(Available(index, node, profile))
      ensures !(0 < count <= old(|Available(index, node, profile)|)) ==> moved == {}
    {
      moved := {};
      SetNothing(store, Processing);
      SetNothing(index, Processing);
      hide NoDuplicates;
      if count == 0 {
        return None, moved;
      }
      var keys := SelectCreated(profile, count);
      if |keys| < count {
        return None, moved;
      }
      var ok;
      ok, moved := MarkProcessing(keys);
      if ok {
        r := Some(keys);
      } else {
        r := None;
      }
    }

    /** Moves the claims to processing, in the index and then in the store; stops at a missing one. */
    method MarkProcessing(keys: seq<Key>) returns (ok: bool, ghost moved: set<Key>)
      requires forall k :: k in keys ==> k in index
      modifies this`store, this`index
      ensures !ok ==> !(moved <= old(store).Keys)
      ensures moved <= Keys(keys) && (ok ==> moved == Keys(keys) && forall k :: k in keys ==> k in old(store))
      ensures store == SetPhases(old(store), moved, Processing) && index == SetPhases(old(index), moved, Processing)
    {
      hide SetPhases;
      moved := {};
      SetNothing(store, Processing);
      SetNothing(index, Processing);
      ghost var store0, index0 := store, index;
      var i := 0;
      while i < |keys|
        invariant 0 <= i <= |keys| && moved == Keys(keys[..i])
        invariant store == SetPhases(store0, moved, Processing) && index == SetPhases(index0, moved, Processing)
        invariant forall j :: 0 <= j < i ==> keys[j] in store0
      {
        var k := keys[i];
        assert keys[..i + 1] == keys[..i] + [k];
        SetPhasesKeys(index0, moved, Processing);
        SetPhasesKeys(store0, moved, Processing);
        SetPhasesTwice(index0, moved, k, Processing);
        index := index[k := index[k].(phase := Processing)];
        if k !in store {
          SetAbsent(store0, moved, k, Processing);
          moved := moved + {k};
          return false, moved;
        }
        SetPhasesTwice(store0, moved, k, Processing);
        store := store[k := store[k].(phase := Processing)];
        moved := moved + {k};
        i := i + 1;
      }
      assert keys[..i] == keys;
      ok := true;
    }

    /**
     * markAllocationInUse: the index entry is set in place, then the store's claim, which replaces
     * the entry. A claim that has left the store is an error, with the index entry already set.
     */
    method MarkInUse(k: Key) returns (ok: bool)
      requires InSync(index, store) && k in index
      modifies this`store, this`index
      ensures ok <==> k in old(store)
      ensures InSync(index, store)
      ensures store == SetPhases(old(store), {k}, InUse) && index == SetPhases(old(index), {k}, InUse)
    {
      SetPhasesTwice(index, {}, k, InUse);
      index := index[k := index[k].(phase := InUse)];
      if k !in store {
        SetAbsent(store, {}, k, InUse);
        SetNothing(store, InUse);
        return false;
      }
      SetPhasesTwice(store, {}, k, InUse);
      store := store[k := store[k].(phase := InUse)];
      index := index[k := store[k]];
      ok := true;
    }

    /** The device loop of one container that has claims: a slice and an annotation per claim, then in use. */
    method FillClaimed(keys: seq<Key>, supply: seq<Option<string>>)
      returns (ok: bool, vals: seq<string>, entries: seq<Entry>, ghost used: set<Key>)
      requires InSync(index, store) && NoDuplicates(keys) && |supply| == |keys|
      requires forall k :: k in keys ==> k in index
      modifies this`store, this`index, this`slices
      ensures InSync(index, store) && used <= Keys(keys) && old(slices) <= slices <= old(slices) + Supplied(supply)
      ensures store == SetPhases(old(store), used, InUse) && index == SetPhases(old(index), used, InUse)
      ensures ok ==> used == Keys(keys) && |vals| == |keys| && entries == Entries(keys, old(index))
      ensures ok <==> Keys(keys) <= old(store).Keys && (!hardware || None !in supply)
      ensures ok && hardware ==>
        slices == old(slices) + SetOf(vals) && forall i :: 0 <= i < |keys| ==> supply[i] == Some(vals[i])
      ensures ok && !hardware ==> slices == old(slices) && forall i :: 0 <= i < |keys| ==> vals[i] == "test"
    {
      hide SetPhases;
      ok, vals, entries, used := true, [], [], {};
      ghost var store0, index0 := store, index;
      SetNothing(store, InUse);
      SetNothing(index, InUse);
      var i := 0;
      while i < |keys|
        invariant 0 <= i <= |keys| && |vals| == i && used == Keys(keys[..i])
        invariant InSync(index, store) && store == SetPhases(store0, used, InUse)
        invariant index == SetPhases(index0, used, InUse)
        invariant entries == Entries(keys, index0)[..i]
        invariant slices == old(slices) + if hardware then SetOf(vals) else {}
        invariant forall j :: 0 <= j < i ==> if hardware then supply[j] == Some(vals[j]) else vals[j] == "test"
        invariant forall j :: 0 <= j < i ==> keys[j] in store0
      {
        var k := keys[i];
        assert keys[..i + 1] == keys[..i] + [k];
        SetPhasesKeys(index0, used, InUse);
        SetPhasesKeys(store0, used, InUse);
        SetPhasesElsewhere(index0, used, k, InUse);
        SetPhasesMore(index0, used, k, InUse);
        SetPhasesMore(store0, used, k, InUse);
        var val := "test";
        if hardware {
          if supply[i].None? {
            ValsAreSupplied(vals, supply);
            return false, vals, entries, used;
          }
          val := supply[i].value;
          slices := slices + {val};
        }
        entries := entries + [Entry(k, index[k])];
        vals := vals + [val];
        var marked := MarkInUse(k);
        used := used + {k};
        if !marked {
          if hardware {
            ValsAreSupplied(vals, supply);
          }
          return false, vals, entries, used;
        }
        i := i + 1;
      }
      assert keys[..i] == keys && Entries(keys, index0)[..i] == Entries(keys, index0);
      if hardware {
        ValsAreSupplied(vals, supply);
      }
    }

    /** A container without claims is told to see the placeholder device. */
    method FillUnclaimed(n: nat) returns (vals: seq<string>)
      ensures |vals| == n && forall i :: 0 <= i < n ==> vals[i] == "test"
    {
      vals := [];
      while |vals| < n
        invariant |vals| <= n && forall i :: 0 <= i < |vals| ==> vals[i] == "test"
      {
        vals := vals + ["test"];
      }
    }

    /** Writes the spec of a container; the file name is new. */
    method WriteSpec(path: string, spec: Spec)
      requires path !in ledger && path !in events
      modifies this`disk, this`ledger
      ensures disk == old(disk)[path := spec] && ledger == old(ledger)[path := spec]
    {
      disk := disk[path := spec];
      ledger := ledger[path := spec];
    }

    /** One container served from claims: its slices are created, its claims in use, its spec written. */
    method ServeClaimed(profile: string, keys: seq<Key>, supply: seq<Option<string>>, path: string)
      returns (ok: bool, ghost used: set<Key>)
      requires Valid() && keys != [] && ReadyIn(index, keys, node, profile) && path !in ledger && path !in events
      requires |supply| == |keys| && GoodSupply(supply, slices)
      modifies this`store, this`index, this`slices, this`disk, this`ledger
      ensures Valid() && used <= Keys(keys)
      ensures store == SetPhases(old(store), used, InUse) && index == SetPhases(old(index), used, InUse)
      ensures old(slices) <= slices <= old(slices) + Supplied(supply)
      ensures !ok ==> disk == old(disk) && ledger == old(ledger)
      ensures ok ==> (
        && used == Keys(keys)
        && path in ledger && ledger == old(ledger)[path := ledger[path]] && disk == old(disk)[path := ledger[path]]
        && ledger[path].kind == profile && RecordedKeys(ledger[path]) == Keys(keys)
        && RecordedUuids(ledger[path], hardware) == (if hardware then Supplied(supply) else {})
        && slices == old(slices) + RecordedUuids(ledger[path], hardware))
      ensures old(Tracked()) ==> Tracked()
      ensures ok <==> Keys(keys) <= old(store).Keys && (!hardware || None !in supply)
      ensures ok && old(AllRecorded()) ==> AllRecorded()
    {
      hide SetPhases, RecordedKeys, RecordedUuids, ContainerSpec, Balanced, Complete, Entries, FilesInOrder, TrackedIn,
           ReadyIn, InSync, PastCreated, Supplied, NamesMatch, KeyedSpec, Keyed;
      ghost var store0, slices0 := store, slices;
      ReadyIsIndexed(index, keys, node, profile);
      var vals, entries;
      ok, vals, entries, used := FillClaimed(keys, supply);
      MarkKeepsBooks(ledger, store0, slices0, node, hardware, used, slices);
      MarkKeepsGiven(given, old(index), used);
      MarkKeepsGiven(given, store0, used);
      NamesPhases(store0, old(index), ledger, used, InUse);
      if !ok {
        return;
      }
      var spec := ContainerSpec(profile, entries, vals);
      ReadyIsProcessing(store0, old(index), keys, node, profile);
      IndexIsKeyed(store0, old(index), ledger);
      KeyedContainer(profile, keys, old(index), vals);
      NamesWrite(store, index, ledger, path, spec);
      WriteKeepsFiles(disk, cache, ledger, events, path, spec);
      FilledSpec(profile, keys, old(index), vals, supply, slices0, hardware);
      NewSpecIsApart(ledger, store0, slices0, node, hardware, keys, spec);
      FilledKeys(store0, keys, node, profile);
      WriteKeepsBooks(ledger, store0, slices0, node, hardware, path, spec, store, slices);
      if Complete(ledger, store0, slices0, node, hardware) {
        WriteKeepsComplete(ledger, store0, slices0, node, hardware, path, spec, store, slices);
      }
      WriteSpec(path, spec);
    }

    /** One container served without claims: nothing is taken, and its spec records nothing. */
    method ServeUnclaimed(profile: string, n: nat, path: string)
      requires Valid() && path !in ledger && path !in events
      modifies this`disk, this`ledger
      ensures Valid() && path in ledger && ledger == old(ledger)[path := ledger[path]]
      ensures disk == old(disk)[path := ledger[path]]
      ensures ledger[path].kind == profile && RecordedKeys(ledger[path]) == {}
      ensures RecordedUuids(ledger[path], hardware) == {}
      ensures old(Tracked()) ==> Tracked()
      ensures old(AllRecorded()) ==> AllRecorded()
    {
      hide RecordedKeys, RecordedUuids, ContainerSpec, Balanced, Complete, FilesInOrder, TrackedIn, NamesMatch,
           KeyedSpec;
      var vals := FillUnclaimed(n);
      var spec := ContainerSpec(profile, [], vals);
      UnclaimedRecordsNothing(profile, vals, hardware);
      KindOfSpec(profile, [], vals);
      KeyedUnclaimed(profile, vals);
      NamesWrite(store, index, ledger, path, spec);
      WriteKeepsFiles(disk, cache, ledger, events, path, spec);
      WriteKeepsBooks(ledger, store, slices, node, hardware, path, spec, store, slices);
      if Complete(ledger, store, slices, node, hardware) {
        WriteKeepsComplete(ledger, store, slices, node, hardware, path, spec, store, slices);
      }
      WriteSpec(path, spec);
    }

    /** Fetches the claims of a whole request and notes them as given. */
    method Take(profile: string, count: nat) returns (claims: seq<Key>)
      requires Valid()
      modifies this`store, this`index, this`given
      ensures Valid() && (old(AllRecorded()) ==> AllRecorded())
      ensures NoDuplicates(claims) && Fetchable(old(index), claims, node, profile)
      ensures claims == [] || (|claims| == count && ReadyIn(index, claims, node, profile))
      ensures Keys(claims) <= store.Keys
      ensures Keys(claims) !! old(given) && given == old(given) + Keys(claims)
      ensures old(Available(index, node, profile)) <= old(store).Keys ==>
        (claims != [] <==> 0 < count <= old(|Available(index, node, profile)|))
      ensures Onward(old(store), store) && Onward(old(index), index)
      ensures claims != [] ==> (
        && store == SetPhases(old(store), Keys(claims), Processing)
        && index == SetPhases(old(index), Keys(claims), Processing))
      ensures old(Available(index, node, profile)) <= old(store).Keys && claims == [] ==>
        store == old(store) && index == old(index)
    {
      hide SetPhases, Balanced, Complete, Onward, NamesMatch;
      var r;
      ghost var moved;
      ghost var store0, index0 := store, index;
      r, moved := FetchClaims(profile, count);
      claims := if r.Some? then r.value else [];
      given := given + Keys(claims);
      FetchKeepsBooks(ledger, store0, index0, slices, node, hardware, moved);
      FetchKeepsGiven(old(given), index0, moved);
      FetchKeepsGiven(old(given), store0, moved);
      OnwardTake(store0, moved);
      OnwardTake(index0, moved);
      NamesPhases(store0, index0, ledger, moved, Processing);
      SetNothing(store0, Processing);
      SetNothing(index0, Processing);
      if r.Some? {
        FetchedAreReady(store0, index0, claims, node, profile);
      }
    }

    /** What the i-th container's spec records: its share of the claims, in use, and the slices made for them. */
    ghost predicate Served(profile: string, requests: seq<seq<string>>, claims: seq<Key>, supply: seq<Option<string>>,
                           paths: seq<string>, i: nat)
      requires i < |requests| && i < |paths| && (claims == [] || |claims| == Total(requests, |requests|))
      requires |supply| == Total(requests, |requests|)
      reads this
    {
      && paths[i] in disk && disk[paths[i]].kind == profile
      && RecordedKeys(disk[paths[i]]) == Share(requests, claims, i)
      && RecordedUuids(disk[paths[i]], hardware) == (if hardware && claims != [] then Made(requests, supply, i) else {})
      && forall k :: k in Share(requests, claims, i) ==> k in store && store[k].phase == InUse
    }

    /** The device ids of a request, an empty list counting as one. */
    method CountIds(requests: seq<seq<string>>) returns (total: nat)
      ensures total == Total(requests, |requests|)
    {
      total := 0;
      var i := 0;
      while i < |requests|
        invariant 0 <= i <= |requests| && total == Total(requests, i)
      {
        total := total + if requests[i] == [] then 1 else |requests[i]|;
        i := i + 1;
      }
    }

    /**
     * Allocate. Either every requested device id gets a claim of its own, one after the other, or
     * no container gets any; no claim given before is given again. When every created claim the
     * index shows is live, claims are given exactly if there are enough. The call fails exactly when
     * a slice cannot be created. Each container's spec records exactly the claims and slices it was
     * given.
     */
    method Allocate(profile: string, requests: seq<seq<string>>, supply: seq<Option<string>>, paths: seq<string>)
      returns (ok: bool, ghost claims: seq<Key>)
      requires Valid() && |supply| == Total(requests, |requests|) && GoodSupply(supply, slices)
      requires |paths| == |requests| && NoDuplicates(paths) && forall p :: p in paths ==> p !in ledger && p !in events
      modifies this`store, this`index, this`slices, this`disk, this`ledger, this`given
      ensures Valid()
      ensures NoDuplicates(claims) && (claims == [] || |claims| == Total(requests, |requests|))
      ensures forall k :: k in claims ==>
        && k in old(index) && old(index)[k].phase == Created
        && old(index)[k].node == node && old(index)[k].profile == profile
      ensures Keys(claims) !! old(given) && given == old(given) + Keys(claims)
      ensures ok ==> forall i :: 0 <= i < |requests| ==> Served(profile, requests, claims, supply, paths, i)
      ensures ok && claims != [] ==> forall i :: 0 <= i < |requests| ==>
        paths[i] in disk && |RecordedKeys(disk[paths[i]])| == if requests[i] == [] then 1 else |requests[i]|
      ensures ok <==> claims == [] || !hardware || None !in supply
      ensures var ready := set k | k in old(index) && old(index)[k].phase == Created && old(index)[k].node == node
                                   && old(index)[k].profile == profile;
        ready <= old(store).Keys ==>
          && (claims != [] <==> 0 < Total(requests, |requests|) <= |ready|)
          && (claims == [] ==> store == old(store) && index == old(index))
      ensures Onward(old(store), store) && Onward(old(index), index)
      ensures ok && claims != [] ==> (
        && store == SetPhases(old(store), Keys(claims), InUse) && index == SetPhases(old(index), Keys(claims), InUse))
      ensures ok && old(AllRecorded()) ==> AllRecorded()
      ensures old(Tracked()) ==> Tracked()
      ensures forall p :: p !in paths ==> (p in disk <==> p in old(disk)) && (p in disk ==> disk[p] == old(disk)[p])
      ensures forall p :: p !in paths ==> (p in ledger <==> p in old(ledger))
      ensures old(slices) <= slices <= old(slices) + Supplied(supply)
    {
      hide Balanced, Complete, RecordedKeys, RecordedUuids, Share, Made, InSync, PastCreated, GoodSupply,
           ReadyIn, FilesInOrder, TrackedIn, Served, Onward, SetPhases, Supplied, NamesMatch;
      var total := CountIds(requests);
      var fetched := Take(profile, total);
      claims := fetched;
      ghost var store1, index1 := store, index;
      ok := ServeAll(profile, requests, fetched, supply, paths);
      if ok && fetched != [] {
        forall i | 0 <= i < |requests|
          ensures paths[i] in disk && |RecordedKeys(disk[paths[i]])| == if requests[i] == [] then 1 else |requests[i]|
        {
          ServedMany(profile, requests, fetched, supply, paths, i);
        }
      }
      OnwardTrans(old(store), store1, store);
      OnwardTrans(old(index), index1, index);
      SetPhasesJoin(old(store), Keys(fetched), {});
      SetPhasesJoin(old(index), Keys(fetched), {});
      SetNothing(store1, InUse);
      SetNothing(index1, InUse);
      assert fetched == [] ==> Keys(fetched) == {};
    }

    /** A served container's spec records as many claims as it has device ids, one if it has none. */
    lemma ServedMany(profile: string, requests: seq<seq<string>>, claims: seq<Key>, supply: seq<Option<string>>,
                     paths: seq<string>, i: nat)
      requires i < |requests| == |paths| && claims != [] && |claims| == Total(requests, |requests|) == |supply|
      requires NoDuplicates(claims) && Served(profile, requests, claims, supply, paths, i)
      ensures paths[i] in disk && |RecordedKeys(disk[paths[i]])| == if requests[i] == [] then 1 else |requests[i]|
    {
      hide RecordedKeys, RecordedUuids, Share, Made;
      ShareSize(requests, claims, i);
    }

    /** The container loop. */
    method ServeAll(profile: string, requests: seq<seq<string>>, claims: seq<Key>, supply: seq<Option<string>>,
                    paths: seq<string>) returns (ok: bool)
      requires Valid() && |supply| == Total(requests, |requests|) && GoodSupply(supply, slices)
      requires |paths| == |requests| && NoDuplicates(paths) && forall p :: p in paths ==> p !in ledger && p !in events
      requires claims == [] || (|claims| == Total(requests, |requests|) && ReadyIn(index, claims, node, profile))
      requires Keys(claims) <= store.Keys
      modifies this`store, this`index, this`slices, this`disk, this`ledger
      ensures Valid()
      ensures ok ==> forall i :: 0 <= i < |requests| ==> Served(profile, requests, claims, supply, paths, i)
      ensures ok <==> claims == [] || !hardware || None !in supply
      ensures Onward(old(store), store) && Onward(old(index), index)
      ensures ok ==> (
        && store == SetPhases(old(store), Keys(claims), InUse) && index == SetPhases(old(index), Keys(claims), InUse))
      ensures ok && old(AllRecorded()) ==> AllRecorded()
      ensures old(Tracked()) ==> Tracked()
      ensures forall p :: p !in paths ==> (p in disk <==> p in old(disk)) && (p in disk ==> disk[p] == old(disk)[p])
      ensures forall p :: p !in paths ==> (p in ledger <==> p in old(ledger))
      ensures old(slices) <= slices <= old(slices) + Supplied(supply)
    {
      hide Balanced, Complete, RecordedKeys, RecordedUuids, Share, Made, InSync, PastCreated, GoodSupply, ReadyIn,
           FilesInOrder, TrackedIn, Served, Onward, SetPhases, Supplied, NamesMatch, NoDuplicates, Asked;
      NothingUsed(store);
      NothingUsed(index);
      var allocIndex, i := 0, 0;
      ghost var done: set<Key> := {};
      assert claims[0..] == claims && supply[0..] == supply && Keys(claims[..0]) == {};
      while i < |requests|
        invariant 0 <= i <= |requests| && allocIndex == Total(requests, i) <= |supply|
        invariant Valid() && (old(AllRecorded()) ==> AllRecorded()) && (old(Tracked()) ==> Tracked())
        invariant claims != [] ==> ReadyIn(index, claims[allocIndex..], node, profile)
        invariant GoodSupply(supply[allocIndex..], slices)
        invariant forall j :: i <= j < |paths| ==> paths[j] !in ledger
        invariant forall j :: 0 <= j < i ==> Served(profile, requests, claims, supply, paths, j)
        invariant forall p :: p !in paths ==> (p in disk <==> p in old(disk)) && (p in disk ==> disk[p] == old(disk)[p])
        invariant forall p :: p !in paths ==> (p in ledger <==> p in old(ledger))
        invariant old(slices) <= slices <= old(slices) + Supplied(supply)
        invariant claims == [] || !hardware || None !in supply[..allocIndex]
        invariant Keys(claims) <= store.Keys && done == if claims == [] then {} else Keys(claims[..allocIndex])
        invariant Onward(old(store), store) && Onward(old(index), index)
        invariant store == SetPhases(old(store), done, InUse) && index == SetPhases(old(index), done, InUse)
      {
        ghost var end, store1, index1 := Total(requests, i + 1), store, index;
        TotalMonotone(requests, i + 1, |requests|);
        ghost var mine := if claims == [] then {} else Keys(claims[allocIndex..end]);
        ShareIsLive(claims, allocIndex, end, store.Keys);
        SupplyGrows(supply, allocIndex, end);
        ok := ServeNext(profile, requests, claims, supply, paths, i, allocIndex);
        OnwardTrans(old(store), store1, store);
        OnwardTrans(old(index), index1, index);
        SetPhasesJoin(old(store), done, mine);
        SetPhasesJoin(old(index), done, mine);
        if !ok {
          return;
        }
        if claims != [] {
          KeysJoin(claims, allocIndex, end);
        }
        done := done + mine;
        allocIndex := allocIndex + Asked(requests[i]);
        i := i + 1;
      }
      assert supply[..allocIndex] == supply && claims[..|claims|] == claims;
      ok := true;
    }

    /** The i-th container, with its share of the claims. */
    method ServeNext(profile: string, requests: seq<seq<string>>, claims: seq<Key>, supply: seq<Option<string>>,
                     paths: seq<string>, i: nat, start: nat) returns (ok: bool)
      requires Valid() && i < |requests| == |paths| && NoDuplicates(paths)
      requires start == Total(requests, i) && |supply| == Total(requests, |requests|) >= start
      requires claims == [] || |claims| == Total(requests, |requests|)
      requires claims != [] ==> ReadyIn(index, claims[start..], node, profile)
      requires GoodSupply(supply[start..], slices) && start + Asked(requests[i]) <= |supply|
      requires forall j :: i <= j < |paths| ==> paths[j] !in ledger && paths[j] !in events
      requires forall j :: 0 <= j < i ==> Served(profile, requests, claims, supply, paths, j)
      modifies this`store, this`index, this`slices, this`disk, this`ledger
      ensures Valid() && given == old(given) && Total(requests, i + 1) <= |supply|
      ensures forall p :: p != paths[i] ==> (p in disk <==> p in old(disk)) && (p in disk ==> disk[p] == old(disk)[p])
      ensures forall p :: p != paths[i] ==> (p in ledger <==> p in old(ledger))
      ensures old(slices) <= slices <= old(slices) + Supplied(supply)
      ensures ok ==> (
        && (old(AllRecorded()) ==> AllRecorded())
        && (claims != [] ==> ReadyIn(index, claims[Total(requests, i + 1)..], node, profile))
        && GoodSupply(supply[Total(requests, i + 1)..], slices)
        && (forall j :: i < j < |paths| ==> paths[j] !in ledger)
        && (forall j :: 0 <= j <= i ==> Served(profile, requests, claims, supply, paths, j)))
      ensures store.Keys == old(store).Keys && (old(Tracked()) ==> Tracked())
      ensures claims != [] ==> start + Asked(requests[i]) <= |claims|
      ensures Onward(old(store), store) && Onward(old(index), index)
      ensures ok ==> (
        var mine := if claims == [] then {} else Keys(claims[start..start + Asked(requests[i])]);
        store == SetPhases(old(store), mine, InUse) && index == SetPhases(old(index), mine, InUse))
      ensures claims == [] ==> ok
      ensures claims != [] ==> (ok <==>
        && Keys(claims[start..start + Asked(requests[i])]) <= old(store).Keys
        && (!hardware || None !in supply[start..start + Asked(requests[i])]))
    {
      hide Balanced, Complete, RecordedKeys, RecordedUuids, SetPhases, InSync, PastCreated, Share, GoodSupply,
           NoDuplicates, ReadyIn, FilesInOrder, TrackedIn, Supplied, Onward, NamesMatch;
      var n := Asked(requests[i]);
      TotalMonotone(requests, i + 1, |requests|);
      PathsDiffer(paths, i);
      SupplySplit(supply, start, n, slices);
      if claims == [] {
        NothingShared(requests, i);
        NothingUsed(store);
        NothingUsed(index);
        ServeUnclaimed(profile, n, paths[i]);
        ok := true;
      } else {
        var keys := claims[start..start + n];
        ReadySplit(index, claims, start, n, node, profile);
        ghost var used, store0, index0 := {}, store, index;
        ShareIs(requests, claims, i);
        ReadyIsOnward(store0, index0, keys, node, profile);
        ok, used := ServeClaimed(profile, keys, supply[start..start + n], paths[i]);
        ServeFrame(store0, index0, used, keys, claims[start + n..], node, profile);
        SupplyAfter(supply, start, n, old(slices), slices);
        SuppliedPart(supply, start, n);
      }
      forall j | 0 <= j < i
        ensures Served(profile, requests, claims, supply, paths, j)
      {
        assert old(Served(profile, requests, claims, supply, paths, j));
      }
    }

    // ---- the CDI watcher ----

    /** handleWriteEvent: the cache follows the file, if it is still there. */
    method HandleWrite(path: string)
      requires Valid()
      modifies this`cache
      ensures Valid() && (old(Tracked()) ==> Tracked())
      ensures cache == if path in disk then old(cache)[path := disk[path]] else old(cache)
    {
      if path in disk {
        cache := cache[path := disk[path]];
      }
    }

    /** processDeviceRemoval: destroys the recorded slices and deletes the recorded claims. */
    method ProcessDeviceRemoval(d: Device)
      modifies this`store, this`slices
      ensures store == old(store) - DeviceKeys(d) && slices == old(slices) - DeviceUuids(d, hardware)
    {
      if d.annotation.None? {
        assert old(store) - {} == store;
        return;
      }
      var allocs := d.annotation.value;
      var migUUID := ScanEnv(d.env);
      assert DeviceKeys(d) == KeysOf(allocs);
      assert slices - {} == slices && KeysOf(allocs[..0]) == {} && store - {} == store;
      if migUUID != "" && hardware {
        var uuids := Split(migUUID);
        var i := 0;
        while i < |uuids|
          invariant 0 <= i <= |uuids| && slices == old(slices) - SetOf(uuids[..i]) && store == old(store)
        {
          assert uuids[..i + 1] == uuids[..i] + [uuids[i]];
          slices := slices - {uuids[i]};
          i := i + 1;
        }
        assert uuids[..i] == uuids && DeviceUuids(d, hardware) == SetOf(uuids);
      }
      ghost var left := slices;
      var i := 0;
      while i < |allocs|
        invariant 0 <= i <= |allocs| && store == old(store) - KeysOf(allocs[..i]) && slices == left
      {
        assert allocs[..i + 1] == allocs[..i] + [allocs[i]];
        KeysOfMore(allocs[..i], allocs[i]);
        store := store - {allocs[i].key};
        i := i + 1;
      }
      assert allocs[..i] == allocs;
    }

    /** The device loop of handleRemoveEvent. */
    method ReleaseSpec(spec: Spec)
      modifies this`store, this`slices
      ensures store == old(store) - RecordedKeys(spec) && slices == old(slices) - RecordedUuids(spec, hardware)
    {
      hide DeviceKeys, DeviceUuids;
      var i := 0;
      RecordedNone(spec, hardware);
      while i < |spec.devices|
        invariant 0 <= i <= |spec.devices|
        invariant store == old(store) - RecordedKeys(spec.(devices := spec.devices[..i]))
        invariant slices == old(slices) - RecordedUuids(spec.(devices := spec.devices[..i]), hardware)
      {
        RecordedMore(spec, i, hardware);
        ProcessDeviceRemoval(spec.devices[i]);
        i := i + 1;
      }
      assert spec.devices[..i] == spec.devices;
    }

    /**
     * handleRemoveEvent: exactly the claims and slices the cached spec records are released, and
     * the books stay complete. A spec that never reached the cache releases nothing.
     */
    method HandleRemove(path: string)
      requires Valid() && path !in disk
      modifies this`store, this`slices, this`cache, this`ledger
      ensures Valid() && cache == old(cache) - {path}
      ensures path in old(cache) ==> (
        && store == old(store) - RecordedKeys(old(cache)[path])
        && slices == old(slices) - RecordedUuids(old(cache)[path], hardware)
        && ledger == old(ledger) - {path})
      ensures path !in old(cache) ==> store == old(store) && slices == old(slices) && ledger == old(ledger)
      ensures old(AllRecorded()) ==> AllRecorded()
    {
      hide RecordedKeys, RecordedUuids, Balanced, Complete, FilesInOrder, InSync, NamesMatch;
      RemoveKeepsFiles(disk, cache, ledger, events, path);
      StillInSync(index, store, if path in cache then RecordedKeys(cache[path]) else {});
      if path in cache {
        NamesDrop(store, index, ledger, RecordedKeys(cache[path]), {path});
        ReleaseKeepsBooks(ledger, store, slices, node, hardware, path);
        ReleaseSpec(cache[path]);
        ledger := ledger - {path};
      }
      cache := cache - {path};
    }

    /** Handles the oldest pending remove event. */
    method HandleNext()
      requires Valid() && events != []
      modifies this`store, this`slices, this`cache, this`ledger, this`events
      ensures Valid() && events == old(events)[1..] && (old(AllRecorded()) ==> AllRecorded())
      ensures old(Tracked()) ==> Tracked()
      ensures Handled(old(cache), old(store), old(slices), old(ledger), old(events)[0], hardware, cache, store, slices,
                      ledger)
    {
      hide RecordedKeys, RecordedUuids, Balanced, Complete, FilesInOrder, TrackedIn, InSync, PastCreated, NamesMatch;
      var path := events[0];
      HandledKeepsFiles(disk, cache, ledger, events, if path in cache then ledger - {path} else ledger);
      HandleRemove(path);
      events := events[1..];
    }

    /** Removes a spec file; a missing one is no error and causes no event. */
    method RemoveFile(path: string)
      requires Valid()
      modifies this`disk, this`events
      ensures Valid() && disk == old(disk) - {path}
      ensures events == if path in old(disk) then old(events) + [path] else old(events)
      ensures old(Tracked()) && (path in old(disk) ==> path in cache) ==> Tracked()
    {
      hide Balanced, InSync, PastCreated, NamesMatch;
      if path in disk {
        disk := disk - {path};
        events := events + [path];
      } else {
        assert disk - {path} == disk;
      }
    }

    /** The cached paths whose spec records a claim of the pod; a path may come once per device. */
    method PathsOf(pod: string) returns (paths: seq<string>)
      ensures forall p :: p in paths <==> p in cache && Mentions(cache[p], pod)
    {
      paths := [];
      var todo := cache.Keys;
      ghost var done: set<string> := {};
      while todo != {}
        invariant done !! todo && done + todo == cache.Keys
        invariant forall p :: p in paths <==> p in done && p in cache && Mentions(cache[p], pod)
        decreases |todo|
      {
        var path :| path in todo;
        var spec := cache[path];
        ghost var before := paths;
        var i := 0;
        while i < |spec.devices|
          invariant 0 <= i <= |spec.devices|
          invariant forall p :: p in paths <==>
            p in before || (p == path && exists j :: 0 <= j < i && DeviceMentions(spec.devices[j], pod))
        {
          if spec.devices[i].annotation.Some? {
            var allocs := spec.devices[i].annotation.value;
            var j := 0;
            while j < |allocs| && allocs[j].claim.pod != pod
              invariant 0 <= j <= |allocs| && forall m :: 0 <= m < j ==> allocs[m].claim.pod != pod
            {
              j := j + 1;
            }
            if j < |allocs| {
              paths := paths + [path];
            }
            assert DeviceMentions(spec.devices[i], pod) <==> j < |allocs|;
          }
          i := i + 1;
        }
        todo := todo - {path};
        done := done + {path};
      }
    }

    /** handlePodDeletion: removes every cached spec file that records a claim of the pod. */
    method HandlePodDeletion(pod: string)
      requires Valid()
      modifies this`disk, this`events
      ensures Valid() && disk == old(disk) - PodPaths(cache, pod) && (old(Tracked()) ==> Tracked())
      ensures forall p :: p in old(disk) ==>
        (p !in disk <==> p in cache && exists k :: k in RecordedKeys(cache[p]) && k.pod == pod)
      ensures old(events) <= events
      ensures forall p :: p in events <==> p in old(events) || (p in old(disk) && p in PodPaths(cache, pod))
    {
      hide Balanced, Mentions, FilesInOrder, TrackedIn, InSync, PastCreated, NamesMatch, RecordedKeys;
      MentioningByName(disk, cache, ledger, events, store, index, pod);
      var paths := PathsOf(pod);
      ghost var gone: set<string> := {};
      assert disk - {} == disk;
      var i := 0;
      while i < |paths|
        invariant 0 <= i <= |paths| && Valid() && gone == SetOf(paths[..i]) && (old(Tracked()) ==> Tracked())
        invariant disk == old(disk) - gone && old(events) <= events
        invariant forall p :: p in events <==> p in old(events) || (p in old(disk) && p in gone)
      {
        assert paths[..i + 1] == paths[..i] + [paths[i]];
        RemoveFile(paths[i]);
        gone := gone + {paths[i]};
        i := i + 1;
      }
      assert paths[..i] == paths;
      assert gone == Mentioning(cache, pod);
    }

    /** The watcher works off its pending remove events. */
    method Drain()
      requires Valid()
      modifies this`store, this`slices, this`cache, this`ledger, this`events
      ensures Valid() && events == [] && cache == old(cache) - SetOf(old(events)) && (old(Tracked()) ==> Tracked())
      ensures store == old(store) - Released(old(cache), SetOf(old(events)))
      ensures slices == old(slices) - ReleasedUuids(old(cache), SetOf(old(events)), hardware)
      ensures ledger == old(ledger) - (SetOf(old(events)) * old(cache).Keys)
      ensures old(AllRecorded()) ==> AllRecorded()
    {
      hide RecordedKeys, RecordedUuids, Balanced, Complete, SetOf, InSync, PastCreated, FilesInOrder, TrackedIn,
           Drained, Handled, NamesMatch;
      ghost var all, done: set<string> := events, {};
      SetOfNone(all);
      DrainedNone(cache, store, slices, ledger, hardware);
      ghost var i := 0;
      while events != []
        invariant 0 <= i <= |all| && events == all[i..] && done == SetOf(all[..i])
        invariant Valid() && (old(AllRecorded()) ==> AllRecorded()) && (old(Tracked()) ==> Tracked())
        invariant Drained(old(cache), old(store), old(slices), old(ledger), done, hardware, cache, store, slices,
                          ledger)
        decreases |events|
      {
        ghost var path, cache1, store1, slices1, ledger1 := events[0], cache, store, slices, ledger;
        SetOfMore(all, i);
        HandleNext();
        DrainedMore(old(cache), old(store), old(slices), old(ledger), done, hardware, cache1, store1, slices1, ledger1,
                    path, cache, store, slices, ledger);
        done := done + {path};
        i := i + 1;
      }
      assert all[..i] == all;
      DrainedMeans(old(cache), old(store), old(slices), old(ledger), done, hardware, cache, store, slices, ledger);
    }

    /**
     * A pod's deletion, worked off: no cached spec records a claim of the pod any more, every claim
     * recorded by a removed spec has left the store, and every spec that recorded none is untouched.
     */
    method DeletePod(pod: string)
      requires Valid()
      modifies this`store, this`slices, this`cache, this`ledger, this`events, this`disk
      ensures Valid() && events == [] && (old(AllRecorded()) ==> AllRecorded()) && (old(Tracked()) ==> Tracked())
      ensures forall p, k :: p in cache && k in RecordedKeys(cache[p]) ==> k.pod != pod
      ensures forall p, k :: p in old(cache) && k in RecordedKeys(old(cache)[p]) && k.pod == pod ==>
        p !in cache && p !in disk && forall k2 :: k2 in RecordedKeys(old(cache)[p]) ==> k2 !in store
      ensures forall p | p !in old(events)
                         && (p in old(cache) ==> forall k :: k in RecordedKeys(old(cache)[p]) ==> k.pod != pod) ::
        SameSpecAt(old(cache), cache, p) && SameSpecAt(old(disk), disk, p)
      ensures var handled := SetOf(old(events)) + PodPaths(old(cache), pod);
        && store == old(store) - Released(old(cache), handled)
        && slices == old(slices) - ReleasedUuids(old(cache), handled, hardware)
        && ledger == old(ledger) - (handled * old(cache).Keys)
    {
      hide Balanced, Complete, RecordedKeys, RecordedUuids, Released, ReleasedUuids, FilesInOrder, TrackedIn, InSync,
           PastCreated, NamesMatch, PodPaths, SetOf;
      ghost var cache0, disk0, store0, events0 := cache, disk, store, events;
      DeleteSpecsOf(pod);
      DeletedMeans(cache0, cache, disk0, disk, store0, store, events0, pod);
    }

    /** The same, by the set of the cached specs that record a claim of the pod. */
    method DeleteSpecsOf(pod: string)
      requires Valid()
      modifies this`store, this`slices, this`cache, this`ledger, this`events, this`disk
      ensures Valid() && events == [] && (old(AllRecorded()) ==> AllRecorded()) && (old(Tracked()) ==> Tracked())
      ensures disk == old(disk) - PodPaths(old(cache), pod)
      ensures var handled := SetOf(old(events)) + PodPaths(old(cache), pod);
        && cache == old(cache) - handled
        && store == old(store) - Released(old(cache), handled)
        && slices == old(slices) - ReleasedUuids(old(cache), handled, hardware)
        && ledger == old(ledger) - (handled * old(cache).Keys)
    {
      hide Balanced, Complete, RecordedKeys, RecordedUuids, Released, ReleasedUuids, TrackedIn, InSync, PastCreated,
           NamesMatch;
      ghost var cache0 := cache;
      HandlePodDeletion(pod);
      ReleasedOnlyCached(cache0, SetOf(events), SetOf(old(events)) + PodPaths(cache0, pod), hardware);
      Drain();
    }

    // ---- the daemon's own upkeep ----

    /** The informer catches up with a store that others changed: new or deleted claims not in use here. */
    method Refresh(latest: ClaimMap)
      requires Valid() && PastCreated(given, latest) && Keyed(latest)
      requires InUseOn(latest, node) == InUseOn(store, node)
      requires forall k :: k in InUseOn(store, node) ==> latest[k] == store[k]
      modifies this`store, this`index
      ensures Valid() && store == latest && index == latest && (old(AllRecorded()) ==> AllRecorded())
    {
      hide RecordedKeys, RecordedUuids;
      RefreshKeepsBooks(ledger, store, latest, slices, node, hardware);
      store := latest;
      index := latest;
    }

    /** No event is pending and the index shows what is in use. */
    ghost predicate Quiescent(profile: string)
      reads this
    {
      && Valid() && AllRecorded() && Tracked() && events == []
      && InUseOf(index, node, profile) == InUseOf(store, node, profile)
    }

    /** ListAndWatch's reboot test: specs against claims in use; on a mismatch those claims are deleted. */
    method DetectReboot(profile: string) returns (reboot: bool)
      modifies this`store, this`index
      ensures var inUse := set k | k in old(index) && old(index)[k].node == node && old(index)[k].profile == profile
                                   && old(index)[k].phase == InUse;
        && (reboot <==> |set p | p in disk && disk[p].kind == profile| != |inUse|)
        && store == (if reboot then old(store) - inUse else old(store))
        && index == (if reboot then old(index) - inUse else old(index))
      ensures old(Quiescent(profile)) ==>
        (reboot <==> Sum(SpecsOf(disk, profile), Sizes(disk)) != |SpecsOf(disk, profile)|)
      ensures old(Quiescent(profile)) && ClaimBacked(disk, profile) ==>
        (reboot <==> exists p :: p in SpecsOf(disk, profile) && |RecordedKeys(disk[p])| != 1)
      ensures old(Valid()) ==> (
        && Balanced(ledger - SpecsOf(ledger, profile), store, slices, node, hardware)
        && InSync(index, store) && PastCreated(given, index) && PastCreated(given, store)
        && (!reboot || SpecsOf(ledger, profile) == {} ==> Valid()))
      ensures old(Valid()) && old(AllRecorded()) ==> AllRecorded()
    {
      hide Balanced, Complete, RecordedKeys, FilesInOrder, TrackedIn;
      if Quiescent(profile) {
        NoEventsAllOnDisk(disk, cache, ledger);
        RebootCount(ledger, store, slices, node, hardware, profile);
        if ClaimBacked(disk, profile) {
          RebootTest(ledger, store, slices, node, hardware, profile);
        }
      }
      ForgetKeepsBooks(ledger, store, index, slices, node, hardware, profile);
      var devices := SpecsOf(disk, profile);
      var inUse := InUseOf(index, node, profile);
      assert devices == set p | p in disk && disk[p].kind == profile;
      assert inUse == set k | k in index && index[k].node == node && index[k].profile == profile
                              && index[k].phase == InUse;
      reboot := |inUse| != |devices|;
      if reboot {
        DeleteAll(inUse);
      }
    }

    /** Deletes claims one by one, from the store and then from the index. */
    method DeleteAll(keys: set<Key>)
      modifies this`store, this`index
      ensures store == old(store) - keys && index == old(index) - keys
    {
      var todo := keys;
      ghost var gone: set<Key> := {};
      assert store - {} == store && index - {} == index;
      while todo != {}
        invariant gone !! todo && gone + todo == keys
        invariant store == old(store) - gone && index == old(index) - gone
        decreases |todo|
      {
        var k :| k in todo;
        DropMore(old(store), gone, k);
        DropMore(old(index), gone, k);
        store := store - {k};
        index := index - {k};
        todo := todo - {k};
        gone := gone + {k};
      }
      assert gone == keys;
    }
  }

  /** A duplicate-free selection is no larger than what it selects from, and as large when it has everything. */
  lemma SelectedAll(keys: seq<Key>, all: set<Key>)
    requires NoDuplicates(keys) && forall k :: k in keys ==> k in all
    ensures |keys| <= |all| && ((forall k :: k in all ==> k in keys) ==> |keys| == |all|)
  {
    KeysSize(keys);
    SubsetSize(Keys(keys), all);
    if forall k :: k in all ==> k in keys {
      assert Keys(keys) == all;
    }
  }

  lemma {:induction false} KeysSize(keys: seq<Key>)
    requires NoDuplicates(keys)
    ensures |Keys(keys)| == |keys|
  {
    if keys != [] {
      var n := |keys| - 1;
      KeysSize(keys[..n]);
      assert Keys(keys) == Keys(keys[..n]) + {keys[n]};
    }
  }

  predicate DeviceMentions(d: Device, pod: string) {
    d.annotation.Some? && exists i :: 0 <= i < |d.annotation.value| && d.annotation.value[i].claim.pod == pod
  }

  predicate Mentions(s: Spec, pod: string) {
    exists i :: 0 <= i < |s.devices| && DeviceMentions(s.devices[i], pod)
  }

  function Mentioning(cache: Specs, pod: string): set<string> {
    set p | p in cache && Mentions(cache[p], pod)
  }

  /** None of the names is the pod's. */
  predicate NoneOf(ks: set<Key>, pod: string) {
    forall k :: k in ks ==> k.pod != pod
  }

  /** The cached specs that record a claim with the pod's name. */
  function PodPaths(cache: Specs, pod: string): set<string> {
    set p | p in cache && !NoneOf(RecordedKeys(cache[p]), pod)
  }

  lemma MentioningByName(disk: Specs, cache: Specs, ledger: Specs, events: seq<string>, store: ClaimMap,
                         index: ClaimMap,
                         pod: string)
    requires FilesInOrder(disk, cache, ledger, events) && NamesMatch(store, index, ledger)
    ensures Mentioning(cache, pod) == PodPaths(cache, pod)
  {
    hide KeyedSpec, Mentions, RecordedKeys;
    forall p | p in cache
      ensures Mentions(cache[p], pod) <==> !NoneOf(RecordedKeys(cache[p]), pod)
    {
      MentionsByName(cache[p], pod);
    }
  }

  lemma DeletedMeans(cache: Specs, cache': Specs, disk: Specs, disk': Specs, store: ClaimMap, store': ClaimMap,
                     events: seq<string>, pod: string)
    requires disk' == disk - PodPaths(cache, pod) && cache' == cache - (SetOf(events) + PodPaths(cache, pod))
    requires store' == store - Released(cache, SetOf(events) + PodPaths(cache, pod))
    ensures forall p, k :: p in cache' && k in RecordedKeys(cache'[p]) ==> k.pod != pod
    ensures forall p, k :: p in cache && k in RecordedKeys(cache[p]) && k.pod == pod ==>
      p !in cache' && p !in disk' && forall k2 :: k2 in RecordedKeys(cache[p]) ==> k2 !in store'
    ensures forall p :: p !in events && (p in cache ==> NoneOf(RecordedKeys(cache[p]), pod)) ==>
      SameSpecAt(cache, cache', p) && SameSpecAt(disk, disk', p)
  {
    hide RecordedKeys;
    forall p, k | p in cache && k in RecordedKeys(cache[p]) && k.pod == pod
      ensures p in PodPaths(cache, pod)
    {
      assert !NoneOf(RecordedKeys(cache[p]), pod);
    }
  }

  function Released(cache: Specs, paths: set<string>): set<Key> {
    set p, k | p in paths && p in cache && k in RecordedKeys(cache[p]) :: k
  }

  function ReleasedUuids(cache: Specs, paths: set<string>, hardware: bool): set<string> {
    set p, u | p in paths && p in cache && u in RecordedUuids(cache[p], hardware) :: u
  }

  function SpecsOf(disk: Specs, kind: string): set<string> {
    set p | p in disk && disk[p].kind == kind
  }

  predicate SameSpecAt(a: Specs, b: Specs, p: string) {
    (p in a <==> p in b) && (p in a ==> a[p] == b[p])
  }

  lemma KeysOfMore(es: seq<Entry>, e: Entry)
    ensures KeysOf(es + [e]) == KeysOf(es) + {e.key}
  {
  }

  lemma RecordedNone(spec: Spec, hardware: bool)
    ensures RecordedKeys(spec.(devices := spec.devices[..0])) == {}
    ensures RecordedUuids(spec.(devices := spec.devices[..0]), hardware) == {}
  {
  }

  lemma RecordedMore(spec: Spec, i: nat, hardware: bool)
    requires i < |spec.devices|
    ensures var a, b := spec.(devices := spec.devices[..i]), spec.(devices := spec.devices[..i + 1]);
      && RecordedKeys(b) == RecordedKeys(a) + DeviceKeys(spec.devices[i])
      && RecordedUuids(b, hardware) == RecordedUuids(a, hardware) + DeviceUuids(spec.devices[i], hardware)
  {
    hide DeviceKeys, DeviceUuids;
    assert spec.devices[..i + 1] == spec.devices[..i] + [spec.devices[i]];
    assert forall d :: d in spec.devices[..i + 1] <==> d in spec.devices[..i] || d == spec.devices[i];
  }

  lemma SetOfNone(xs: seq<string>)
    ensures SetOf(xs[..0]) == {}
  {
  }

  lemma SetOfMore(xs: seq<string>, i: nat)
    requires i < |xs|
    ensures SetOf(xs[..i + 1]) == SetOf(xs[..i]) + {xs[i]}
  {
  }

  /** What handling one remove event does. */
  predicate Handled(cache: Specs, store: ClaimMap, slices: set<string>, ledger: Specs, path: string, hardware: bool,
                    cache': Specs, store': ClaimMap, slices': set<string>, ledger': Specs)
  {
    && cache' == cache - {path}
    && if path in cache then
         && store' == store - RecordedKeys(cache[path]) && slices' == slices - RecordedUuids(cache[path], hardware)
         && ledger' == ledger - {path}
       else store' == store && slices' == slices && ledger' == ledger
  }

  /** What handling a set of remove events does. */
  predicate Drained(cache: Specs, store: ClaimMap, slices: set<string>, ledger: Specs, done: set<string>,
                    hardware: bool,
                    cache': Specs, store': ClaimMap, slices': set<string>, ledger': Specs)
  {
    && cache' == cache - done && store' == store - Released(cache, done)
    && slices' == slices - ReleasedUuids(cache, done, hardware) && ledger' == ledger - (done * cache.Keys)
  }

  lemma DrainedNone(cache: Specs, store: ClaimMap, slices: set<string>, ledger: Specs, hardware: bool)
    ensures Drained(cache, store, slices, ledger, {}, hardware, cache, store, slices, ledger)
  {
    assert Released(cache, {}) == {} && ReleasedUuids(cache, {}, hardware) == {} && {} * cache.Keys == {};
  }

  lemma DrainedMore(cache: Specs, store: ClaimMap, slices: set<string>, ledger: Specs, done: set<string>,
                    hardware: bool,
                    cache1: Specs, store1: ClaimMap, slices1: set<string>, ledger1: Specs,
                    path: string, cache2: Specs, store2: ClaimMap, slices2: set<string>, ledger2: Specs)
    requires Drained(cache, store, slices, ledger, done, hardware, cache1, store1, slices1, ledger1)
    requires Handled(cache1, store1, slices1, ledger1, path, hardware, cache2, store2, slices2, ledger2)
    ensures Drained(cache, store, slices, ledger, done + {path}, hardware, cache2, store2, slices2, ledger2)
  {
    hide RecordedKeys, RecordedUuids, Released, ReleasedUuids;
    ReleasedMore(cache, done, path, hardware);
    DropHandled(ledger, done, cache.Keys, path);
  }

  lemma DrainedMeans(cache: Specs, store: ClaimMap, slices: set<string>, ledger: Specs, done: set<string>,
                     hardware: bool,
                     cache': Specs, store': ClaimMap, slices': set<string>, ledger': Specs)
    requires Drained(cache, store, slices, ledger, done, hardware, cache', store', slices', ledger')
    ensures cache' == cache - done && store' == store - Released(cache, done)
    ensures slices' == slices - ReleasedUuids(cache, done, hardware) && ledger' == ledger - (done * cache.Keys)
  {
  }

  lemma StillInSync(index: ClaimMap, store: ClaimMap, gone: set<Key>)
    requires InSync(index, store)
    ensures InSync(index, store - gone)
  {
  }

  lemma ReleasedMore(cache: Specs, done: set<string>, path: string, hardware: bool)
    ensures Released(cache, done + {path}) ==
            Released(cache, done) + (if path in cache then RecordedKeys(cache[path]) else {})
    ensures ReleasedUuids(cache, done + {path}, hardware) ==
            ReleasedUuids(cache, done, hardware) + (if path in cache then RecordedUuids(cache[path], hardware) else {})
    ensures path in done ==> (
      && Released(cache, done + {path}) == Released(cache, done)
      && ReleasedUuids(cache, done + {path}, hardware) == ReleasedUuids(cache, done, hardware))
  {
    hide RecordedKeys, RecordedUuids;
  }

  lemma DropHandled(ledger: Specs, done: set<string>, cached: set<string>, path: string)
    ensures ledger - ((done + {path}) * cached) ==
            if path in cached && path !in done then (ledger - (done * cached)) - {path} else ledger - (done * cached)
  {
    assert (done + {path}) * cached == if path in cached then (done * cached) + {path} else done * cached;
    assert path in done && path in cached ==> (done * cached) + {path} == done * cached;
  }

  lemma ReleasedOnlyCached(cache: Specs, a: set<string>, b: set<string>, hardware: bool)
    requires forall p :: p in cache ==> (p in a <==> p in b)
    ensures Released(cache, a) == Released(cache, b)
    ensures ReleasedUuids(cache, a, hardware) == ReleasedUuids(cache, b, hardware)
    ensures a * cache.Keys == b * cache.Keys
  {
    hide RecordedKeys, RecordedUuids;
  }

  lemma RefreshKeepsBooks(ledger: Specs, store: ClaimMap, latest: ClaimMap, slices: set<string>, node: string,
                          hardware: bool)
    requires InUseOn(latest, node) == InUseOn(store, node)
    requires forall k :: k in InUseOn(store, node) ==> latest[k] == store[k]
    ensures Balanced(ledger, store, slices, node, hardware) ==> Balanced(ledger, latest, slices, node, hardware)
    ensures Complete(ledger, store, slices, node, hardware) ==> Complete(ledger, latest, slices, node, hardware)
  {
    hide RecordedKeys, RecordedUuids;
    forall profile
      ensures InUseOf(latest, node, profile) == InUseOf(store, node, profile)
    {
      assert forall k :: k in InUseOf(latest, node, profile) ==> k in InUseOn(latest, node);
      assert forall k :: k in InUseOf(store, node, profile) ==> k in InUseOn(store, node);
    }
  }

  lemma PathsDiffer(paths: seq<string>, i: nat)
    requires i < |paths| && NoDuplicates(paths)
    ensures forall j :: 0 <= j < |paths| && j != i ==> paths[j] != paths[i]
  {
  }

  lemma NothingShared(requests: seq<seq<string>>, i: nat)
    requires i < |requests|
    ensures Share(requests, [], i) == {}
  {
  }

  lemma ShareIs(requests: seq<seq<string>>, claims: seq<Key>, i: nat)
    requires i < |requests| && claims != [] && |claims| == Total(requests, |requests|)
    ensures Total(requests, i) + Asked(requests[i]) <= |claims|
    ensures Share(requests, claims, i) == Keys(claims[Total(requests, i)..Total(requests, i) + Asked(requests[i])])
  {
    hide Keys, Asked;
    assert Total(requests, i + 1) == Total(requests, i) + Asked(requests[i]);
    TotalMonotone(requests, i + 1, |requests|);
  }

  lemma ShareSize(requests: seq<seq<string>>, claims: seq<Key>, i: nat)
    requires i < |requests| && claims != [] && |claims| == Total(requests, |requests|) && NoDuplicates(claims)
    ensures |Share(requests, claims, i)| == if requests[i] == [] then 1 else |requests[i]|
  {
    ShareIs(requests, claims, i);
    KeysSize(claims[Total(requests, i)..Total(requests, i) + Asked(requests[i])]);
  }

  /** The slices made for the i-th container. */
  function Made(requests: seq<seq<string>>, supply: seq<Option<string>>, i: nat): set<string>
    requires i < |requests| && |supply| == Total(requests, |requests|)
  {
    TotalMonotone(requests, i + 1, |requests|);
    Supplied(supply[Total(requests, i)..Total(requests, i + 1)])
  }

  lemma ShareIsLive(claims: seq<Key>, a: nat, b: nat, live: set<Key>)
    requires a <= b && Keys(claims) <= live
    ensures b <= |claims| ==> Keys(claims[a..b]) <= live
  {
    if b <= |claims| {
      assert forall k :: k in claims[a..b] ==> k in claims;
    }
  }

  lemma SupplyGrows(supply: seq<Option<string>>, a: nat, b: nat)
    requires a <= b <= |supply|
    ensures None in supply[..b] <==> None in supply[..a] || None in supply[a..b]
    ensures None in supply[..b] ==> None in supply
  {
  }

  function Share(requests: seq<seq<string>>, claims: seq<Key>, i: nat): set<Key>
    requires i < |requests| && (claims == [] || |claims| == Total(requests, |requests|))
  {
    TotalMonotone(requests, i + 1, |requests|);
    if claims == [] then {} else Keys(claims[Total(requests, i)..Total(requests, i + 1)])
  }

  lemma KindOfSpec(kind: string, entries: seq<Entry>, vals: seq<string>)
    ensures ContainerSpec(kind, entries, vals).kind == kind
  {
  }

  lemma FetchKeepsBooks(ledger: Specs, store: ClaimMap, index: ClaimMap, slices: set<string>, node: string,
                        hardware: bool, moved: set<Key>)
    requires Balanced(ledger, store, slices, node, hardware) && InSync(index, store)
    requires forall k :: k in moved ==> k in index && index[k].phase == Created
    ensures Balanced(ledger, SetPhases(store, moved, Processing), slices, node, hardware)
    ensures Complete(ledger, store, slices, node, hardware) ==>
      Complete(ledger, SetPhases(store, moved, Processing), slices, node, hardware)
  {
    hide RecordedKeys, RecordedUuids;
    var store' := SetPhases(store, moved, Processing);
    forall p | p in ledger
      ensures RecordedKeys(ledger[p]) <= InUseOf(store', node, ledger[p].kind)
    {
      forall k | k in RecordedKeys(ledger[p])
        ensures k in InUseOf(store', node, ledger[p].kind)
      {
        assert k in InUseOf(store, node, ledger[p].kind);
      }
    }
    assert InUseOn(store', node) <= InUseOn(store, node);
  }

  lemma FetchKeepsGiven(given: set<Key>, m: ClaimMap, moved: set<Key>)
    requires PastCreated(given, m)
    ensures PastCreated(given + moved, SetPhases(m, moved, Processing))
  {
  }

  lemma FetchedAreReady(store: ClaimMap, index: ClaimMap, claims: seq<Key>, node: string, profile: string)
    requires Fetchable(store, claims, node, profile) && Fetchable(index, claims, node, profile)
    ensures var ks := Keys(claims);
      var store', index' := SetPhases(store, ks, Processing), SetPhases(index, ks, Processing);
      Keys(claims) <= store'.Keys && (NoDuplicates(claims) ==> ReadyIn(index', claims, node, profile))
  {
  }

  lemma SupplySplit(supply: seq<Option<string>>, start: nat, n: nat, slices: set<string>)
    requires start + n <= |supply| && GoodSupply(supply[start..], slices)
    ensures GoodSupply(supply[start..start + n], slices) && GoodSupply(supply[start + n..], slices)
  {
  }

  lemma SupplyAfter(supply: seq<Option<string>>, start: nat, n: nat, before: set<string>, after: set<string>)
    requires start + n <= |supply| && GoodSupply(supply[start..], before)
    requires after <= before + Supplied(supply[start..start + n])
    ensures GoodSupply(supply[start + n..], after)
  {
  }

  lemma SuppliedPart(supply: seq<Option<string>>, start: nat, n: nat)
    requires start + n <= |supply|
    ensures Supplied(supply[start..start + n]) <= Supplied(supply)
  {
  }

  lemma ReadySplit(index: ClaimMap, claims: seq<Key>, start: nat, n: nat, node: string, profile: string)
    requires start + n <= |claims| && ReadyIn(index, claims[start..], node, profile)
    ensures ReadyIn(index, claims[start..start + n], node, profile)
    ensures ReadyIn(index, claims[start + n..], node, profile)
    ensures Keys(claims[start..start + n]) !! Keys(claims[start + n..])
  {
  }

  lemma ReadyIsIndexed(index: ClaimMap, keys: seq<Key>, node: string, profile: string)
    requires ReadyIn(index, keys, node, profile)
    ensures NoDuplicates(keys) && forall k :: k in keys ==> k in index
  {
  }

  lemma ReadyIsProcessing(store: ClaimMap, index: ClaimMap, keys: seq<Key>, node: string, profile: string)
    requires ReadyIn(index, keys, node, profile) && InSync(index, store) && Keys(keys) <= store.Keys
    ensures NoDuplicates(keys)
    ensures forall k :: k in keys ==>
      k in store && store[k].phase == Processing && store[k].node == node && store[k].profile == profile
  {
  }

  lemma NothingUsed(m: ClaimMap)
    ensures SetPhases(m, {}, InUse) == m && Onward(m, m)
  {
  }

  /** Putting any of the claims that are ready to use moves store and index onward. */
  lemma ReadyIsOnward(store: ClaimMap, index: ClaimMap, keys: seq<Key>, node: string, profile: string)
    requires ReadyIn(index, keys, node, profile) && InSync(index, store)
    ensures forall used: set<Key> :: used <= Keys(keys) ==>
      Onward(store, SetPhases(store, used, InUse)) && Onward(index, SetPhases(index, used, InUse))
  {
    hide SetPhases, Onward;
    forall used: set<Key> | used <= Keys(keys)
      ensures Onward(store, SetPhases(store, used, InUse)) && Onward(index, SetPhases(index, used, InUse))
    {
      OnwardUse(store, used);
      OnwardUse(index, used);
    }
  }

  /** Putting some claims in use leaves the others as they were and takes none out of use. */
  lemma ServeFrame(store: ClaimMap, index: ClaimMap, used: set<Key>, keys: seq<Key>, later: seq<Key>, node: string,
                   profile: string)
    requires used <= Keys(keys) && Keys(keys) !! Keys(later)
    ensures ReadyIn(index, later, node, profile) ==> ReadyIn(SetPhases(index, used, InUse), later, node, profile)
    ensures SetPhases(store, used, InUse).Keys == store.Keys
    ensures forall k :: k in store && store[k].phase == InUse ==>
      k in SetPhases(store, used, InUse) && SetPhases(store, used, InUse)[k].phase == InUse
    ensures forall k :: k in used && k in store ==>
      k in SetPhases(store, used, InUse) && SetPhases(store, used, InUse)[k].phase == InUse
  {
  }

  /** The UUIDs NVML may return: new to the node, distinct, not empty, without commas; None when creation fails. */
  predicate GoodSupply(supply: seq<Option<string>>, slices: set<string>) {
    && (forall i :: 0 <= i < |supply| && supply[i].Some? ==>
          supply[i].value !in slices && ',' !in supply[i].value && supply[i].value != "")
    && (forall i, j :: 0 <= i < j < |supply| && supply[i].Some? ==> supply[i] != supply[j])
  }

  lemma ValsAreSupplied(vals: seq<string>, supply: seq<Option<string>>)
    requires |vals| <= |supply| && forall j :: 0 <= j < |vals| ==> supply[j] == Some(vals[j])
    ensures SetOf(vals) <= Supplied(supply) && (|vals| == |supply| ==> SetOf(vals) == Supplied(supply))
  {
  }

  lemma MarkKeepsBooks(ledger: Specs, store: ClaimMap, slices: set<string>, node: string, hardware: bool,
                       used: set<Key>, slices': set<string>)
    requires Balanced(ledger, store, slices, node, hardware) && slices <= slices'
    ensures Balanced(ledger, SetPhases(store, used, InUse), slices', node, hardware)
  {
  }

  lemma MarkKeepsGiven(given: set<Key>, m: ClaimMap, used: set<Key>)
    requires PastCreated(given, m)
    ensures PastCreated(given, SetPhases(m, used, InUse))
  {
  }

  lemma FilledSpec(profile: string, keys: seq<Key>, index: ClaimMap, vals: seq<string>, supply: seq<Option<string>>,
                   slices: set<string>, hardware: bool)
    requires keys != [] && |vals| == |keys| == |supply| && GoodSupply(supply, slices)
    requires forall k :: k in keys ==> k in index
    requires forall i :: 0 <= i < |keys| ==> if hardware then supply[i] == Some(vals[i]) else vals[i] == "test"
    ensures var spec := ContainerSpec(profile, Entries(keys, index), vals);
      && spec.kind == profile && RecordedKeys(spec) == Keys(keys)
      && RecordedUuids(spec, hardware) == (if hardware then SetOf(vals) else {})
      && RecordedUuids(spec, hardware) !! slices
      && (hardware ==> SetOf(vals) == Supplied(supply))
  {
    hide RecordedKeys, RecordedUuids;
    var entries := Entries(keys, index);
    assert CommaFree(vals) && forall i :: 0 <= i < |vals| ==> vals[i] != "";
    SpecRoundTrip(profile, entries, vals, hardware);
    assert KeysOf(entries) == Keys(keys) by {
      forall k | k in Keys(keys)
        ensures k in KeysOf(entries)
      {
        var i :| 0 <= i < |keys| && keys[i] == k;
        assert entries[i].key == k && entries[i] in entries;
      }
    }
    if hardware {
      ValsAreSupplied(vals, supply);
    }
  }

  lemma NewSpecIsApart(ledger: Specs, store: ClaimMap, slices: set<string>, node: string, hardware: bool,
                       keys: seq<Key>, spec: Spec)
    requires Balanced(ledger, store, slices, node, hardware)
    requires RecordedKeys(spec) == Keys(keys) && RecordedUuids(spec, hardware) !! slices
    requires forall k :: k in keys ==> k in store && store[k].phase == Processing
    ensures forall p :: p in ledger ==>
      && RecordedKeys(ledger[p]) !! RecordedKeys(spec)
      && RecordedUuids(ledger[p], hardware) !! RecordedUuids(spec, hardware)
  {
  }

  lemma FilledKeys(store: ClaimMap, keys: seq<Key>, node: string, profile: string)
    requires forall k :: k in keys ==>
      k in store && store[k].phase == Processing && store[k].node == node && store[k].profile == profile
    ensures var store' := SetPhases(store, Keys(keys), InUse);
      && Keys(keys) <= InUseOf(store', node, profile) && InUseOn(store', node) <= InUseOn(store, node) + Keys(keys)
      && (forall k :: k in InUseOn(store, node) ==> k in store' && store'[k] == store[k])
  {
  }

  function Supplied(supply: seq<Option<string>>): set<string> {
    set o | o in supply && o.Some? :: o.value
  }

  lemma SetPhasesKeys(m: ClaimMap, ks: set<Key>, phase: Phase)
    ensures SetPhases(m, ks, phase).Keys == m.Keys
  {
  }

  lemma SetPhasesElsewhere(m: ClaimMap, ks: set<Key>, k: Key, phase: Phase)
    requires k in m && k !in ks
    ensures k in SetPhases(m, ks, phase) && SetPhases(m, ks, phase)[k] == m[k]
  {
  }

  lemma SetPhasesMore(m: ClaimMap, ks: set<Key>, k: Key, phase: Phase)
    ensures SetPhases(SetPhases(m, ks, phase), {k}, phase) == SetPhases(m, ks + {k}, phase)
  {
  }

  lemma SetAbsent(m: ClaimMap, ks: set<Key>, k: Key, phase: Phase)
    requires k !in m
    ensures SetPhases(m, ks + {k}, phase) == SetPhases(m, ks, phase)
  {
  }

  lemma SetNothing(m: ClaimMap, phase: Phase)
    ensures SetPhases(m, {}, phase) == m
  {
  }

  // ---- the reboot test ----

  ghost function UnionOf(ledger: Specs, paths: set<string>): set<Key> {
    set p, k | p in paths && p in ledger && k in RecordedKeys(ledger[p]) :: k
  }

  function Sizes(ledger: Specs): string -> nat {
    p => if p in ledger then |RecordedKeys(ledger[p])| else 0
  }

  lemma {:induction false} UnionSize(ledger: Specs, paths: set<string>, hardware: bool)
    requires Disjoint(ledger, hardware) && paths <= ledger.Keys
    ensures |UnionOf(ledger, paths)| == Sum(paths, Sizes(ledger))
    decreases |paths|
  {
    hide RecordedKeys, RecordedUuids, Disjoint;
    if paths == {} {
      assert UnionOf(ledger, paths) == {};
    } else {
      var p :| p in paths;
      UnionSize(ledger, paths - {p}, hardware);
      SumRemove(paths, p, Sizes(ledger));
      UnionSplit(ledger, paths, p, hardware);
    }
  }

  lemma UnionSplit(ledger: Specs, paths: set<string>, p: string, hardware: bool)
    requires Disjoint(ledger, hardware) && paths <= ledger.Keys && p in paths
    ensures |UnionOf(ledger, paths)| == |UnionOf(ledger, paths - {p})| + |RecordedKeys(ledger[p])|
  {
    hide RecordedKeys, RecordedUuids;
    var rest, mine := UnionOf(ledger, paths - {p}), RecordedKeys(ledger[p]);
    assert UnionOf(ledger, paths) == rest + mine;
    assert rest !! mine;
  }

  /** Every container of the profile was served from claims. */
  predicate ClaimBacked(specs: Specs, profile: string) {
    forall p :: p in SpecsOf(specs, profile) ==> RecordedKeys(specs[p]) != {}
  }

  /** With complete books the claims in use are as many as the slices all containers of the profile hold together. */
  lemma RebootCount(ledger: Specs, store: ClaimMap, slices: set<string>, node: string, hardware: bool, profile: string)
    requires Balanced(ledger, store, slices, node, hardware) && Complete(ledger, store, slices, node, hardware)
    ensures |InUseOf(store, node, profile)| == Sum(SpecsOf(ledger, profile), Sizes(ledger))
  {
    hide RecordedKeys, RecordedUuids, Complete, Disjoint, Backed, InUseOf;
    InUseIsUnion(ledger, store, slices, node, hardware, profile);
    UnionSize(ledger, SpecsOf(ledger, profile), hardware);
  }

  /**
   * The reboot test, characterised: with complete books and every container of the profile served
   * from claims, the claims in use equal the specs in number exactly when every such container
   * holds exactly one slice. A container with two slices makes a running node look rebooted.
   */
  lemma RebootTest(ledger: Specs, store: ClaimMap, slices: set<string>, node: string, hardware: bool, profile: string)
    requires Balanced(ledger, store, slices, node, hardware) && Complete(ledger, store, slices, node, hardware)
    requires ClaimBacked(ledger, profile)
    ensures |InUseOf(store, node, profile)| >= |SpecsOf(ledger, profile)|
    ensures |InUseOf(store, node, profile)| == |SpecsOf(ledger, profile)| <==>
            forall p :: p in SpecsOf(ledger, profile) ==> |RecordedKeys(ledger[p])| == 1
  {
    hide RecordedKeys, RecordedUuids;
    hide Complete, Disjoint, Backed, InUseOf;
    var paths := SpecsOf(ledger, profile);
    var sizes := Sizes(ledger);
    RebootCount(ledger, store, slices, node, hardware, profile);
    var one: string -> nat := p => 1;
    SumOnes(paths, one);
    forall p | p in paths
      ensures one(p) <= sizes(p) && sizes(p) == |RecordedKeys(ledger[p])|
    {
      assert RecordedKeys(ledger[p]) != {};
    }
    SumMonotone(paths, one, sizes);
  }

  /** Deleting a profile's claims in use spares the books of the other profiles. */
  lemma ForgetKeepsBooks(ledger: Specs, store: ClaimMap, index: ClaimMap, slices: set<string>, node: string,
                         hardware: bool,
                         profile: string)
    ensures var store' := store - InUseOf(index, node, profile);
      && (Balanced(ledger, store, slices, node, hardware) && InSync(index, store) ==> (
            && Balanced(ledger - SpecsOf(ledger, profile), store, slices, node, hardware)
            && Balanced(ledger - SpecsOf(ledger, profile), store', slices, node, hardware)))
      && (Complete(ledger, store, slices, node, hardware) ==> Complete(ledger, store', slices, node, hardware))
    ensures SpecsOf(ledger, profile) == {} ==> ledger - SpecsOf(ledger, profile) == ledger
  {
    hide RecordedKeys, RecordedUuids;
    assert InUseOn(store - InUseOf(index, node, profile), node) <= InUseOn(store, node);
  }

  lemma InUseIsUnion(ledger: Specs, store: ClaimMap, slices: set<string>, node: string, hardware: bool, profile: string)
    requires Balanced(ledger, store, slices, node, hardware) && Complete(ledger, store, slices, node, hardware)
    ensures InUseOf(store, node, profile) == UnionOf(ledger, SpecsOf(ledger, profile))
  {
    hide RecordedKeys, RecordedUuids;
    forall k | k in InUseOf(store, node, profile)
      ensures k in UnionOf(ledger, SpecsOf(ledger, profile))
    {
      assert k in InUseOn(store, node);
      var p :| p in ledger && k in RecordedKeys(ledger[p]);
      assert k in InUseOf(store, node, ledger[p].kind);
    }
  }
}
