/**
 * What one uninterrupted Filter and one uninterrupted PreBind do to the API server's claims (the
 * store) and to the scheduler's informer cache (the index), and the laws of a scheduling cycle.
 */
module SchedulerSpec {
  import opened Claims
  import opened SlotSearch
  import opened Greedy

  datatype World = World(store: ClaimMap, index: ClaimMap)

  datatype Verdict = Success | Unschedulable | Error

  datatype Outcome = Outcome(world: World, verdict: Verdict)

  /** One requested slice: the ordinal counts within its container. */
  datatype Req = Req(container: string, ordinal: nat, profile: string)

  function KeyOf(pod: string, node: string, r: Req): Key {
    Key(pod, node, r.container, r.ordinal)
  }

  function ClaimOf(res: Resources, pod: string, node: string, r: Req, spot: Spot): Claim {
    Claim(r.profile, pod, node, spot.gpu, spot.start, ProfileSize(res, r.profile), Staged)
  }

  predicate DistinctReqs(reqs: seq<Req>) {
    forall i, j :: 0 <= i < j < |reqs| ==> reqs[i].container != reqs[j].container || reqs[i].ordinal != reqs[j].ordinal
  }

  function Profiles(reqs: seq<Req>): (ps: seq<string>)
    ensures |ps| == |reqs| && forall i :: 0 <= i < |reqs| ==> ps[i] == reqs[i].profile
  {
    seq(|reqs|, i requires 0 <= i < |reqs| => reqs[i].profile)
  }

  /** The claims a map holds for a pod on a node. */
  function Own(m: ClaimMap, pod: string, node: string): set<Key> {
    set k | k in m && m[k].pod == pod && m[k].node == node
  }

  function OwnAnywhere(m: ClaimMap, pod: string): set<Key> {
    set k | k in m && m[k].pod == pod
  }

  /** The names of the first n requested claims. */
  function Requested(pod: string, node: string, reqs: seq<Req>, n: nat): set<Key>
    requires n <= |reqs|
  {
    if n == 0 then {} else Requested(pod, node, reqs, n - 1) + {KeyOf(pod, node, reqs[n - 1])}
  }

  /** Another pod has a staged claim on this GPU: the Filter leaves the GPU alone. */
  predicate HeldByOther(m: ClaimMap, node: string, gpu: string, pod: string) {
    exists k :: k in m && m[k].node == node && m[k].gpu == gpu && m[k].phase == Staged && m[k].pod != pod
  }

  function Snapshot(m: ClaimMap, res: Resources, pod: string, node: string): Tables {
    map g | g in res.gpus && !HeldByOther(m, node, g, pod) :: Occupied(m, node, g, pod)
  }

  /** The staged claims of the first n placed requests. */
  function StagedClaims(res: Resources, pod: string, node: string, reqs: seq<Req>, spots: seq<Spot>, n: nat): ClaimMap
    requires n <= |spots| && n <= |reqs|
  {
    if n == 0 then map[]
    else StagedClaims(res, pod, node, reqs, spots, n - 1)
         [KeyOf(pod, node, reqs[n - 1]) := ClaimOf(res, pod, node, reqs[n - 1], spots[n - 1])]
  }

  /** The first of requests i..n whose Create or status update the API server refuses, n if none. */
  function FirstFault(pod: string, node: string, reqs: seq<Req>, faults: set<Key>, n: nat, i: nat := 0): (k: nat)
    requires i <= n <= |reqs|
    ensures i <= k <= n
    ensures k < n ==> KeyOf(pod, node, reqs[k]) in faults
    ensures forall j :: i <= j < k ==> KeyOf(pod, node, reqs[j]) !in faults
    decreases n - i
  {
    if i == n || KeyOf(pod, node, reqs[i]) in faults then i
    else FirstFault(pod, node, reqs, faults, n, i + 1)
  }

  function Purged(w: World, pod: string, node: string): World {
    var items := Own(w.index, pod, node);
    World(w.store - items, w.index - items)
  }

  function PlanOn(w: World, res: Resources, pod: string, node: string, reqs: seq<Req>): (spots: seq<Spot>)
    ensures |spots| <= |reqs|
  {
    Plan(res, Snapshot(Purged(w, pod, node).index, res, pod, node), Profiles(reqs))
  }

  /** What a Filter with the given plan adds to the store and to the index. */
  function Added(res: Resources, pod: string, node: string, reqs: seq<Req>, spots: seq<Spot>, faults: set<Key>): World
    requires |spots| <= |reqs|
  {
    var staged := StagedClaims(res, pod, node, reqs, spots, |spots|);
    if FirstFault(pod, node, reqs, faults, |spots|) < |spots| then World(map[], map[])
    else if |spots| < |reqs| then World(map[], staged)
    else World(staged, staged)
  }

  function VerdictOf(pod: string, node: string, reqs: seq<Req>, spots: seq<Spot>, faults: set<Key>): Verdict
    requires |spots| <= |reqs|
  {
    var k := FirstFault(pod, node, reqs, faults, |spots|);
    if k < |spots| then (if k == 0 then Error else Success)
    else if |spots| < |reqs| then Unschedulable
    else Success
  }

  /** Delete some names, then write some entries. */
  function Edit(m: ClaimMap, items: set<Key>, add: ClaimMap): ClaimMap {
    (m - items) + add
  }

  /**
   * Filter on one node. A refused API call rolls everything back, but the rollback overwrites the
   * error, so it is reported only when there was nothing to roll back. A lack of room rolls back
   * the store and forgets the index.
   */
  function Filter(w: World, res: Resources, pod: string, node: string, reqs: seq<Req>, faults: set<Key>): Outcome {
    var items := Own(w.index, pod, node);
    var spots := PlanOn(w, res, pod, node, reqs);
    var add := Added(res, pod, node, reqs, spots, faults);
    Outcome(World(Edit(w.store, items, add.store), Edit(w.index, items, add.index)),
            VerdictOf(pod, node, reqs, spots, faults))
  }

  /** PreBind can promote: it lists something, and nothing listed on the node has left the store. */
  predicate CanPromote(w: World, pod: string, node: string) {
    && OwnAnywhere(w.index, pod) != {}
    && forall k :: k in Own(w.index, pod, node) && w.index[k].phase != Created ==> k in w.store
  }

  function Promoted(c: Claim): Claim {
    c.(phase := Created)
  }

  /** PreBind on the chosen node: promote the pod's claims there, drop all its others. */
  function PreBind(w: World, pod: string, node: string): World
    requires CanPromote(w, pod, node)
  {
    var up := set k | k in Own(w.index, pod, node) && w.index[k].phase != Created;
    var down := OwnAnywhere(w.index, pod) - Own(w.index, pod, node);
    World(map k | k in w.store.Keys - down :: if k in up then Promoted(w.store[k]) else w.store[k],
          map k | k in w.index.Keys - down :: if k in up then Promoted(w.store[k]) else w.index[k])
  }

  // ---- what the index must know before a cycle ----

  /** The index lists every stored claim of the pod on the node. */
  predicate Covered(w: World, pod: string, node: string) {
    Keyed(w.store) && Keyed(w.index) && forall k :: k in w.store && k.pod == pod && k.node == node ==> k in w.index
  }

  predicate CoveredEverywhere(w: World, pod: string) {
    Keyed(w.store) && Keyed(w.index) && forall k :: k in w.store && k.pod == pod ==> k in w.index
  }

  /** All entries are claims of the pod on the node. */
  predicate OnlyFor(m: ClaimMap, pod: string, node: string) {
    forall k :: k in m ==> k.pod == pod && k.node == node && m[k].pod == pod && m[k].node == node
  }

  lemma {:induction false} StagedClaimsAre(res: Resources, pod: string, node: string, reqs: seq<Req>, spots: seq<Spot>,
                                           n: nat)
    requires n <= |spots| && n <= |reqs| && DistinctReqs(reqs)
    ensures var m := StagedClaims(res, pod, node, reqs, spots, n);
      && m.Keys == Requested(pod, node, reqs, n)
      && OnlyFor(m, pod, node)
      && (forall i :: 0 <= i < n ==> KeyOf(pod, node, reqs[i]) in m)
      && (forall i :: 0 <= i < n ==> m[KeyOf(pod, node, reqs[i])] == ClaimOf(res, pod, node, reqs[i], spots[i]))
  {
    if n > 0 {
      StagedClaimsAre(res, pod, node, reqs, spots, n - 1);
    }
  }

  lemma {:induction false} RequestedSize(pod: string, node: string, reqs: seq<Req>, n: nat)
    requires n <= |reqs| && DistinctReqs(reqs)
    ensures |Requested(pod, node, reqs, n)| == n
  {
    if n > 0 {
      RequestedSize(pod, node, reqs, n - 1);
      RequestedAre(pod, node, reqs, n - 1);
    }
  }

  /** The pod has exactly one claim per request on the node, of the requested profile, in the given phase. */
  predicate OwnsExactly(m: ClaimMap, pod: string, node: string, reqs: seq<Req>, phase: Phase) {
    && Own(m, pod, node) == Requested(pod, node, reqs, |reqs|)
    && forall i :: 0 <= i < |reqs| ==> (
         && KeyOf(pod, node, reqs[i]) in m
         && m[KeyOf(pod, node, reqs[i])].profile == reqs[i].profile
         && m[KeyOf(pod, node, reqs[i])].phase == phase)
  }

  /** Nothing outside the pod's claims on this node differs between the two maps. */
  ghost predicate SameElsewhere(a: ClaimMap, b: ClaimMap, pod: string, node: string) {
    forall k: Key :: k.pod != pod || k.node != node ==> (k in a <==> k in b) && (k in a ==> a[k] == b[k])
  }

  lemma EditEffect(m: ClaimMap, items: set<Key>, add: ClaimMap, pod: string, node: string)
    requires Keyed(m) && OnlyFor(add, pod, node)
    requires forall k :: k in items ==> k.pod == pod && k.node == node
    ensures Keyed(Edit(m, items, add)) && SameElsewhere(m, Edit(m, items, add), pod, node)
    ensures Own(m, pod, node) <= items ==> Own(Edit(m, items, add), pod, node) == add.Keys
  {
  }

  lemma AddedIsOwn(res: Resources, pod: string, node: string, reqs: seq<Req>, spots: seq<Spot>, faults: set<Key>)
    requires |spots| <= |reqs| && DistinctReqs(reqs)
    ensures var add := Added(res, pod, node, reqs, spots, faults);
      OnlyFor(add.store, pod, node) && OnlyFor(add.index, pod, node) && add.store.Keys <= add.index.Keys
  {
    StagedClaimsAre(res, pod, node, reqs, spots, |spots|);
  }

  /** A Filter deletes the pod's listed claims and adds claims of its own node; nothing else. */
  lemma FilterStaysOnNode(w: World, res: Resources, pod: string, node: string, reqs: seq<Req>, faults: set<Key>)
    requires DistinctReqs(reqs) && Keyed(w.store) && Keyed(w.index)
    ensures var o := Filter(w, res, pod, node, reqs, faults);
      var add := Added(res, pod, node, reqs, PlanOn(w, res, pod, node, reqs), faults);
      && Keyed(o.world.store) && Keyed(o.world.index)
      && SameElsewhere(w.store, o.world.store, pod, node) && SameElsewhere(w.index, o.world.index, pod, node)
      && Own(o.world.index, pod, node) == add.index.Keys
      && (Covered(w, pod, node) ==> Own(o.world.store, pod, node) == add.store.Keys && Covered(o.world, pod, node))
  {
    var spots, items := PlanOn(w, res, pod, node, reqs), Own(w.index, pod, node);
    var add := Added(res, pod, node, reqs, spots, faults);
    AddedIsOwn(res, pod, node, reqs, spots, faults);
    EditEffect(w.store, items, add.store, pod, node);
    EditEffect(w.index, items, add.index, pod, node);
  }

  /**
   * One Filter without API failures: success means exactly one staged claim per request in both
   * maps; a lack of room leaves none in the store and one ghost per placed request in the index.
   * Either way nothing else changes.
   */
  lemma FilterEffect(w: World, res: Resources, pod: string, node: string, reqs: seq<Req>)
    requires DistinctReqs(reqs) && Covered(w, pod, node)
    ensures var o, spots := Filter(w, res, pod, node, reqs, {}), PlanOn(w, res, pod, node, reqs);
      && Covered(o.world, pod, node)
      && SameElsewhere(w.store, o.world.store, pod, node) && SameElsewhere(w.index, o.world.index, pod, node)
      && (o.verdict == Success <==> |spots| == |reqs|)
      && (o.verdict == Success ==> (
            && OwnsExactly(o.world.store, pod, node, reqs, Staged)
            && OwnsExactly(o.world.index, pod, node, reqs, Staged)))
      && (o.verdict != Success ==> (
            && o.verdict == Unschedulable && Own(o.world.store, pod, node) == {}
            && Own(o.world.index, pod, node) == Requested(pod, node, reqs, |spots|)))
  {
    var spots, items := PlanOn(w, res, pod, node, reqs), Own(w.index, pod, node);
    FilterStaysOnNode(w, res, pod, node, reqs, {});
    if |spots| == |reqs| {
      EditOwnsExactly(w.store, items, res, pod, node, reqs, spots);
      EditOwnsExactly(w.index, items, res, pod, node, reqs, spots);
    } else {
      StagedClaimsAre(res, pod, node, reqs, spots, |spots|);
    }
  }

  lemma EditOwnsExactly(m: ClaimMap, items: set<Key>, res: Resources, pod: string, node: string, reqs: seq<Req>,
                        spots: seq<Spot>)
    requires Keyed(m) && DistinctReqs(reqs) && |spots| == |reqs|
    requires forall k :: k in items ==> k.pod == pod && k.node == node
    requires Own(m, pod, node) <= items
    ensures OwnsExactly(Edit(m, items, StagedClaims(res, pod, node, reqs, spots, |reqs|)), pod, node, reqs, Staged)
  {
    StagedClaimsAre(res, pod, node, reqs, spots, |reqs|);
    EditEffect(m, items, StagedClaims(res, pod, node, reqs, spots, |reqs|), pod, node);
  }

  /**
   * A Filter leaves no trace for the pod's next Filter on that node: whatever the first one left
   * behind (staged claims, ghosts in the index, or nothing after a failed call), the second acts
   * as if it had never run.
   */
  lemma FilterForgets(w: World, res: Resources, pod: string, node: string,
                      reqs1: seq<Req>, faults1: set<Key>, reqs2: seq<Req>, faults2: set<Key>)
    requires DistinctReqs(reqs1) && Covered(w, pod, node)
    ensures var w' := Filter(w, res, pod, node, reqs1, faults1).world;
      && Purged(w', pod, node) == Purged(w, pod, node)
      && Filter(w', res, pod, node, reqs2, faults2) == Filter(w, res, pod, node, reqs2, faults2)
  {
    var spots, items := PlanOn(w, res, pod, node, reqs1), Own(w.index, pod, node);
    var add := Added(res, pod, node, reqs1, spots, faults1);
    var w' := Filter(w, res, pod, node, reqs1, faults1).world;
    FilterStaysOnNode(w, res, pod, node, reqs1, faults1);
    AddedIsOwn(res, pod, node, reqs1, spots, faults1);
    EditThenPurge(w.store, items, add.store, add.index.Keys, pod, node);
    EditThenPurge(w.index, items, add.index, add.index.Keys, pod, node);
    var spots2 := PlanOn(w, res, pod, node, reqs2);
    assert PlanOn(w', res, pod, node, reqs2) == spots2;
  }

  /** Editing away `items` and then `items2` is the same as removing `items`, when the edit added only `items2`. */
  lemma EditThenPurge(m: ClaimMap, items: set<Key>, add: ClaimMap, items2: set<Key>, pod: string, node: string)
    requires Keyed(m) && add.Keys <= items2
    requires forall k :: k in items2 ==> k.pod == pod && k.node == node
    requires Own(m, pod, node) <= items
    ensures Edit(m, items, add) - items2 == m - items
  {
  }

  /**
   * A reported success is backed by claims unless an API failure struck after the first placed
   * request: then the rollback's own success replaces the error and the node passes with nothing.
   */
  lemma SuccessIsBacked(w: World, res: Resources, pod: string, node: string, reqs: seq<Req>, faults: set<Key>)
    requires DistinctReqs(reqs) && Covered(w, pod, node)
    ensures var o, spots := Filter(w, res, pod, node, reqs, faults), PlanOn(w, res, pod, node, reqs);
      var k := FirstFault(pod, node, reqs, faults, |spots|);
      && ((o.verdict == Success ==> OwnsExactly(o.world.store, pod, node, reqs, Staged)) <==> !(0 < k < |spots|))
      && (0 < k < |spots| ==>
            o.verdict == Success && Own(o.world.store, pod, node) == {} == Own(o.world.index, pod, node))
      && (o.verdict == Error <==> k == 0 < |spots|)
      && (o.verdict == Unschedulable <==> k == |spots| < |reqs|)
  {
    var spots := PlanOn(w, res, pod, node, reqs);
    var k := FirstFault(pod, node, reqs, faults, |spots|);
    if k == |spots| {
      NoFaultNoDifference(pod, node, reqs, faults, |spots|, 0);
      FilterEffect(w, res, pod, node, reqs);
    } else {
      FilterStaysOnNode(w, res, pod, node, reqs, faults);
      assert KeyOf(pod, node, reqs[|reqs| - 1]) in Requested(pod, node, reqs, |reqs|);
    }
  }

  lemma {:induction false} NoFaults(pod: string, node: string, reqs: seq<Req>, n: nat, i: nat)
    requires i <= n <= |reqs|
    ensures FirstFault(pod, node, reqs, {}, n, i) == n
    decreases n - i
  {
    if i < n { NoFaults(pod, node, reqs, n, i + 1); }
  }

  lemma {:induction false} NoFaultNoDifference(pod: string, node: string, reqs: seq<Req>, faults: set<Key>, n: nat,
                                               i: nat)
    requires i <= n <= |reqs| && FirstFault(pod, node, reqs, faults, n, i) == n
    ensures FirstFault(pod, node, reqs, {}, n, i) == n
    decreases n - i
  {
  }

  // ---- Filters on different nodes ----

  /** The two indexes agree on the node's claims. */
  ghost predicate SameAt(a: ClaimMap, b: ClaimMap, node: string) {
    forall k: Key :: k.node == node ==> (k in a <==> k in b) && (k in a ==> a[k] == b[k])
  }

  lemma SnapshotIsLocal(a: ClaimMap, b: ClaimMap, res: Resources, pod: string, node: string)
    requires Keyed(a) && Keyed(b) && SameAt(a, b, node)
    ensures Snapshot(a, res, pod, node) == Snapshot(b, res, pod, node)
  {
    forall g: string
      ensures HeldByOther(a, node, g, pod) == HeldByOther(b, node, g, pod)
      ensures Occupied(a, node, g, pod) == Occupied(b, node, g, pod)
    {
      OccupiedIsLocal(a, b, node, g, pod);
    }
  }

  lemma OccupiedIsLocal(a: ClaimMap, b: ClaimMap, node: string, gpu: string, pod: string)
    requires Keyed(a) && Keyed(b) && SameAt(a, b, node)
    ensures HeldByOther(a, node, gpu, pod) == HeldByOther(b, node, gpu, pod)
    ensures Occupied(a, node, gpu, pod) == Occupied(b, node, gpu, pod)
  {
  }

  lemma PlanIsLocal(w: World, v: World, res: Resources, pod: string, node: string, reqs: seq<Req>)
    requires Keyed(w.index) && Keyed(v.index) && SameAt(w.index, v.index, node)
    ensures Own(w.index, pod, node) == Own(v.index, pod, node)
    ensures PlanOn(w, res, pod, node, reqs) == PlanOn(v, res, pod, node, reqs)
  {
    assert Own(w.index, pod, node) == Own(v.index, pod, node);
    SnapshotIsLocal(Purged(w, pod, node).index, Purged(v, pod, node).index, res, pod, node);
  }

  lemma EditsCommute(m: ClaimMap, items1: set<Key>, add1: ClaimMap, items2: set<Key>, add2: ClaimMap)
    requires items1 + add1.Keys !! items2 + add2.Keys
    ensures Edit(Edit(m, items1, add1), items2, add2) == Edit(Edit(m, items2, add2), items1, add1)
  {
  }

  /**
   * Parallel Filters commute: for one pod and two nodes, either order gives the same verdicts and
   * the same store and index.
   */
  lemma FiltersCommute(w: World, pod: string,
                       n1: string, res1: Resources, reqs1: seq<Req>, faults1: set<Key>,
                       n2: string, res2: Resources, reqs2: seq<Req>, faults2: set<Key>)
    requires DistinctReqs(reqs1) && DistinctReqs(reqs2)
    requires n1 != n2 && Keyed(w.store) && Keyed(w.index)
    ensures var a := Filter(w, res1, pod, n1, reqs1, faults1);
      var b := Filter(w, res2, pod, n2, reqs2, faults2);
      var ab := Filter(a.world, res2, pod, n2, reqs2, faults2);
      var ba := Filter(b.world, res1, pod, n1, reqs1, faults1);
      ab.world == ba.world && ab.verdict == b.verdict && ba.verdict == a.verdict
  {
    hide Own, PlanOn, Added, VerdictOf, Edit, DistinctReqs;
    var a := Filter(w, res1, pod, n1, reqs1, faults1);
    var b := Filter(w, res2, pod, n2, reqs2, faults2);
    var spots1, spots2 := PlanOn(w, res1, pod, n1, reqs1), PlanOn(w, res2, pod, n2, reqs2);
    var add1, add2 := Added(res1, pod, n1, reqs1, spots1, faults1), Added(res2, pod, n2, reqs2, spots2, faults2);
    var items1, items2 := Own(w.index, pod, n1), Own(w.index, pod, n2);
    PlanSurvives(w, pod, n1, res1, reqs1, faults1, n2, res2, reqs2);
    PlanSurvives(w, pod, n2, res2, reqs2, faults2, n1, res1, reqs1);
    AddedIsOwn(res1, pod, n1, reqs1, spots1, faults1);
    AddedIsOwn(res2, pod, n2, reqs2, spots2, faults2);
    OwnIsApart(w.index, pod, n1, add1, n2, add2);
    EditsCommute(w.store, items1, add1.store, items2, add2.store);
    EditsCommute(w.index, items1, add1.index, items2, add2.index);
  }

  lemma OwnIsApart(index: ClaimMap, pod: string, n1: string, add1: World, n2: string, add2: World)
    requires Keyed(index) && n1 != n2
    requires OnlyFor(add1.store, pod, n1) && OnlyFor(add1.index, pod, n1) && OnlyFor(add2.store, pod, n2)
    requires OnlyFor(add2.index, pod, n2)
    ensures var items1, items2 := Own(index, pod, n1), Own(index, pod, n2);
      items1 + add1.store.Keys !! items2 + add2.store.Keys && items1 + add1.index.Keys !! items2 + add2.index.Keys
  {
  }

  /** After a Filter on n1, the Filter on n2 lists and plans as before it. */
  lemma PlanSurvives(w: World, pod: string, n1: string, res1: Resources, reqs1: seq<Req>, faults1: set<Key>,
                     n2: string, res2: Resources, reqs2: seq<Req>)
    requires DistinctReqs(reqs1)
    requires n1 != n2 && Keyed(w.store) && Keyed(w.index)
    ensures var a := Filter(w, res1, pod, n1, reqs1, faults1).world;
      && Own(a.index, pod, n2) == Own(w.index, pod, n2)
      && PlanOn(a, res2, pod, n2, reqs2) == PlanOn(w, res2, pod, n2, reqs2)
  {
    FilterStaysOnNode(w, res1, pod, n1, reqs1, faults1);
    PlanIsLocal(Filter(w, res1, pod, n1, reqs1, faults1).world, w, res2, pod, n2, reqs2);
  }

  // ---- a whole scheduling cycle ----

  /** A Filter call of a cycle: the node, its table, the order the limits were read in, the refused API calls. */
  datatype Visit = Visit(node: string, res: Resources, reqs: seq<Req>, faults: set<Key>)

  predicate ValidVisits(visits: seq<Visit>) {
    forall i :: 0 <= i < |visits| ==> DistinctReqs(visits[i].reqs)
  }

  /** The c-th call is the last one on its node. */
  predicate IsLast(visits: seq<Visit>, c: nat)
    requires c < |visits|
  {
    forall j :: c < j < |visits| ==> visits[j].node != visits[c].node
  }

  /** The world after the first n Filters of the cycle. */
  function FilterAll(w: World, pod: string, visits: seq<Visit>, n: nat): World
    requires ValidVisits(visits) && n <= |visits|
  {
    if n == 0 then w else FilterStep(FilterAll(w, pod, visits, n - 1), pod, visits[n - 1]).world
  }

  function FilterStep(w: World, pod: string, v: Visit): Outcome {
    Filter(w, v.res, pod, v.node, v.reqs, v.faults)
  }

  /** The first refused call comes after a placed request: its error is lost in the rollback. */
  predicate HidesError(w: World, pod: string, v: Visit) {
    var spots := PlanOn(w, v.res, pod, v.node, v.reqs);
    0 < FirstFault(pod, v.node, v.reqs, v.faults, |spots|) < |spots|
  }

  ghost predicate SameForOthers(a: ClaimMap, b: ClaimMap, pod: string) {
    forall k: Key :: k.pod != pod ==> (k in a <==> k in b) && (k in a ==> a[k] == b[k])
  }

  lemma OwnsExactlyFrame(a: ClaimMap, b: ClaimMap, pod: string, node: string, other: string, reqs: seq<Req>,
                         phase: Phase)
    requires Keyed(a) && Keyed(b) && node != other && SameElsewhere(a, b, pod, other)
    requires OwnsExactly(a, pod, node, reqs, phase)
    ensures OwnsExactly(b, pod, node, reqs, phase)
  {
  }

  lemma {:induction false} FilterAllCovers(w: World, pod: string, visits: seq<Visit>, n: nat)
    requires ValidVisits(visits) && n <= |visits| && CoveredEverywhere(w, pod)
    ensures var w' := FilterAll(w, pod, visits, n);
      CoveredEverywhere(w', pod) && SameForOthers(w.store, w'.store, pod) && SameForOthers(w.index, w'.index, pod)
  {
    hide FilterStep;
    if n > 0 {
      FilterAllCovers(w, pod, visits, n - 1);
      StepCovers(FilterAll(w, pod, visits, n - 1), pod, visits[n - 1]);
    }
  }

  lemma StepCovers(w: World, pod: string, v: Visit)
    requires DistinctReqs(v.reqs) && CoveredEverywhere(w, pod)
    ensures var w' := FilterStep(w, pod, v).world;
      CoveredEverywhere(w', pod) && SameForOthers(w.store, w'.store, pod) && SameForOthers(w.index, w'.index, pod)
  {
    FilterStaysOnNode(w, v.res, pod, v.node, v.reqs, v.faults);
  }

  /** The Filters of a cycle do not change what any Filter of the cycle plans, on whichever node. */
  lemma {:induction false} PlanNeverChanges(w: World, pod: string, visits: seq<Visit>, n: nat, v: Visit)
    requires ValidVisits(visits) && n <= |visits| && CoveredEverywhere(w, pod)
    ensures PlanOn(FilterAll(w, pod, visits, n), v.res, pod, v.node, v.reqs) == PlanOn(w, v.res, pod, v.node, v.reqs)
  {
    hide PlanOn, Filter;
    if n > 0 {
      PlanNeverChanges(w, pod, visits, n - 1, v);
      FilterAllCovers(w, pod, visits, n - 1);
      var before, u := FilterAll(w, pod, visits, n - 1), visits[n - 1];
      if u.node == v.node {
        PlanForgets(before, pod, u, v);
      } else {
        PlanSurvives(before, pod, u.node, u.res, u.reqs, u.faults, v.node, v.res, v.reqs);
      }
    }
  }

  lemma PlanForgets(w: World, pod: string, u: Visit, v: Visit)
    requires DistinctReqs(u.reqs) && u.node == v.node
    requires Covered(w, pod, u.node)
    ensures PlanOn(FilterStep(w, pod, u).world, v.res, pod, v.node, v.reqs) == PlanOn(w, v.res, pod, v.node, v.reqs)
  {
    hide Filter, Purged;
    FilterForgets(w, u.res, pod, u.node, u.reqs, u.faults, v.reqs, v.faults);
  }

  lemma {:induction false} FilterAllKeeps(w: World, pod: string, visits: seq<Visit>, c: nat, n: nat)
    requires ValidVisits(visits) && c < n <= |visits| && CoveredEverywhere(w, pod) && IsLast(visits, c)
    ensures Passes(w, pod, visits, c) ==>
      Leaves(FilterAll(w, pod, visits, n), pod, visits[c], HidesError(w, pod, visits[c]))
  {
    hide FilterStep, Leaves, PlanOn;
    FilterAllCovers(w, pod, visits, n - 1);
    if Passes(w, pod, visits, c) {
      if c < n - 1 {
        FilterAllKeeps(w, pod, visits, c, n - 1);
        FilterKeepsElsewhere(FilterAll(w, pod, visits, n - 1), pod, visits[n - 1], visits[c],
                             HidesError(w, pod, visits[c]));
      } else {
        PlanNeverChanges(w, pod, visits, c, visits[c]);
        PassedOwns(FilterAll(w, pod, visits, c), pod, visits[c]);
      }
    }
  }

  /** The cycle's c-th Filter succeeds. */
  predicate Passes(w: World, pod: string, visits: seq<Visit>, c: nat)
    requires ValidVisits(visits) && c < |visits|
  {
    FilterStep(FilterAll(w, pod, visits, c), pod, visits[c]).verdict == Success
  }

  predicate OwnsStaged(w: World, pod: string, v: Visit) {
    OwnsExactly(w.store, pod, v.node, v.reqs, Staged) && OwnsExactly(w.index, pod, v.node, v.reqs, Staged)
  }

  predicate OwnsNothing(w: World, pod: string, v: Visit) {
    Own(w.store, pod, v.node) == {} && Own(w.index, pod, v.node) == {}
  }

  /** What a passing Filter leaves on its node: the requested claims, or nothing at all. */
  predicate Leaves(w: World, pod: string, v: Visit, hidden: bool) {
    if hidden then OwnsNothing(w, pod, v) else OwnsStaged(w, pod, v)
  }

  lemma FilterKeepsElsewhere(w: World, pod: string, v: Visit, other: Visit, hidden: bool)
    requires DistinctReqs(v.reqs) && Covered(w, pod, v.node) && other.node != v.node
    requires Leaves(w, pod, other, hidden)
    ensures Leaves(FilterStep(w, pod, v).world, pod, other, hidden)
  {
    hide Filter, OwnsExactly;
    FilterStaysOnNode(w, v.res, pod, v.node, v.reqs, v.faults);
    var w' := FilterStep(w, pod, v).world;
    if hidden {
      OwnElsewhere(w.store, w'.store, pod, other.node, v.node);
      OwnElsewhere(w.index, w'.index, pod, other.node, v.node);
    } else {
      OwnsExactlyFrame(w.store, w'.store, pod, other.node, v.node, other.reqs, Staged);
      OwnsExactlyFrame(w.index, w'.index, pod, other.node, v.node, other.reqs, Staged);
    }
  }

  lemma OwnElsewhere(a: ClaimMap, b: ClaimMap, pod: string, node: string, other: string)
    requires Keyed(a) && Keyed(b) && node != other && SameElsewhere(a, b, pod, other)
    ensures Own(a, pod, node) == Own(b, pod, node)
  {
  }

  lemma PassedOwns(w: World, pod: string, v: Visit)
    requires DistinctReqs(v.reqs) && Covered(w, pod, v.node)
    requires FilterStep(w, pod, v).verdict == Success
    ensures Leaves(FilterStep(w, pod, v).world, pod, v, HidesError(w, pod, v))
  {
    hide OwnsExactly, PlanOn;
    SuccessIsBacked(w, v.res, pod, v.node, v.reqs, v.faults);
    if !HidesError(w, pod, v) {
      var spots := PlanOn(w, v.res, pod, v.node, v.reqs);
      NoFaultNoDifference(pod, v.node, v.reqs, v.faults, |spots|, 0);
      FilterEffect(w, v.res, pod, v.node, v.reqs);
    }
  }

  /** PreBind where every claim of the pod on the node is staged and stored. */
  lemma PreBindEffect(w: World, pod: string, node: string, reqs: seq<Req>)
    requires CoveredEverywhere(w, pod)
    requires OwnsExactly(w.store, pod, node, reqs, Staged) && OwnsExactly(w.index, pod, node, reqs, Staged)
    ensures reqs != [] ==> CanPromote(w, pod, node)
    ensures CanPromote(w, pod, node) ==> (
      var w' := PreBind(w, pod, node);
      && OwnsExactly(w'.store, pod, node, reqs, Created) && OwnsExactly(w'.index, pod, node, reqs, Created)
      && OwnAnywhere(w'.store, pod) == Requested(pod, node, reqs, |reqs|) == OwnAnywhere(w'.index, pod)
      && SameForOthers(w.store, w'.store, pod) && SameForOthers(w.index, w'.index, pod))
  {
    if reqs != [] {
      assert KeyOf(pod, node, reqs[0]) in OwnAnywhere(w.index, pod);
    }
    if CanPromote(w, pod, node) {
      PreBindOwns(w, pod, node, reqs);
    }
  }

  lemma PreBindOwns(w: World, pod: string, node: string, reqs: seq<Req>)
    requires CoveredEverywhere(w, pod) && CanPromote(w, pod, node)
    requires OwnsExactly(w.store, pod, node, reqs, Staged) && OwnsExactly(w.index, pod, node, reqs, Staged)
    ensures var w' := PreBind(w, pod, node);
      && OwnsExactly(w'.store, pod, node, reqs, Created) && OwnsExactly(w'.index, pod, node, reqs, Created)
      && OwnAnywhere(w'.store, pod) == Requested(pod, node, reqs, |reqs|) == OwnAnywhere(w'.index, pod)
      && SameForOthers(w.store, w'.store, pod) && SameForOthers(w.index, w'.index, pod)
  {
    var wanted := Requested(pod, node, reqs, |reqs|);
    assert forall k :: k in wanted ==> w.index[k].phase == Staged by {
      RequestedAre(pod, node, reqs, |reqs|);
    }
    var w' := PreBind(w, pod, node);
    assert OwnAnywhere(w'.store, pod) == wanted;
    assert OwnAnywhere(w'.index, pod) == wanted;
    assert Own(w'.store, pod, node) == wanted;
    assert Own(w'.index, pod, node) == wanted;
  }

  lemma {:induction false} RequestedAre(pod: string, node: string, reqs: seq<Req>, n: nat)
    requires n <= |reqs|
    ensures forall k :: k in Requested(pod, node, reqs, n) ==> exists i :: 0 <= i < n && k == KeyOf(pod, node, reqs[i])
  {
    if n > 0 { RequestedAre(pod, node, reqs, n - 1); }
  }

  lemma {:induction false} RequestedHas(pod: string, node: string, reqs: seq<Req>, n: nat, i: nat)
    requires i < n <= |reqs|
    ensures KeyOf(pod, node, reqs[i]) in Requested(pod, node, reqs, n)
  {
    if i < n - 1 { RequestedHas(pod, node, reqs, n - 1, i); }
  }

  /**
   * Whole-cycle conservation: Filters on any nodes, in any order and as often as they come, then
   * PreBind on a node whose last Filter passed. The pod ends with exactly one `created` claim per
   * requested slice, all on the chosen node, in the store and in the index, and no other pod's claim
   * changed, if and only if that Filter did not hide an error.
   */
  lemma CycleConserves(w: World, pod: string, visits: seq<Visit>, c: nat)
    requires ValidVisits(visits) && c < |visits| && IsLast(visits, c) && CoveredEverywhere(w, pod)
    requires visits[c].reqs != []
    ensures Passes(w, pod, visits, c) ==>
      (BoundExactly(w, FilterAll(w, pod, visits, |visits|), pod, visits[c]) <==> !HidesError(w, pod, visits[c]))
  {
    hide Passes, FilterStep, CoveredEverywhere, SameForOthers, OwnsStaged, OwnsNothing, BoundExactly, HidesError;
    FilterAllCovers(w, pod, visits, |visits|);
    FilterAllKeeps(w, pod, visits, c, |visits|);
    if Passes(w, pod, visits, c) {
      var w1 := FilterAll(w, pod, visits, |visits|);
      if HidesError(w, pod, visits[c]) {
        NothingBinds(w, w1, pod, visits[c]);
      } else {
        StagedBinds(w, w1, pod, visits[c]);
      }
    }
  }

  /**
   * When the chosen Filter hid an error, PreBind still succeeds whenever the pod has any index entry
   * elsewhere, and then binds the pod to the node with no claim at all.
   */
  lemma BoundWithNothing(w: World, pod: string, visits: seq<Visit>, c: nat)
    requires ValidVisits(visits) && c < |visits| && IsLast(visits, c) && CoveredEverywhere(w, pod)
    requires Passes(w, pod, visits, c) && HidesError(w, pod, visits[c])
    ensures var w1, node := FilterAll(w, pod, visits, |visits|), visits[c].node;
      && (CanPromote(w1, pod, node) <==> OwnAnywhere(w1.index, pod) != {})
      && (CanPromote(w1, pod, node) ==> (
            OwnAnywhere(PreBind(w1, pod, node).store, pod) == {} == OwnAnywhere(PreBind(w1, pod, node).index, pod)))
  {
    hide Passes, FilterStep, HidesError;
    FilterAllCovers(w, pod, visits, |visits|);
    FilterAllKeeps(w, pod, visits, c, |visits|);
  }

  lemma NothingBinds(w: World, w1: World, pod: string, v: Visit)
    requires CoveredEverywhere(w1, pod) && OwnsNothing(w1, pod, v) && v.reqs != []
    ensures !BoundExactly(w, w1, pod, v)
  {
    hide SameForOthers;
  }

  lemma StagedBinds(w: World, w1: World, pod: string, v: Visit)
    requires CoveredEverywhere(w1, pod) && OwnsStaged(w1, pod, v) && v.reqs != [] && DistinctReqs(v.reqs)
    requires SameForOthers(w.store, w1.store, pod) && SameForOthers(w.index, w1.index, pod)
    ensures BoundExactly(w, w1, pod, v)
  {
    hide OwnsExactly, Requested, PreBind, CanPromote, OwnAnywhere;
    PreBindEffect(w1, pod, v.node, v.reqs);
    RequestedSize(pod, v.node, v.reqs, |v.reqs|);
  }

  /** PreBind on the visited node can promote, and leaves the pod exactly its requests there, created. */
  ghost predicate BoundExactly(w: World, w1: World, pod: string, v: Visit) {
    CanPromote(w1, pod, v.node) && Conserved(w, PreBind(w1, pod, v.node), pod, v.node, v.reqs)
  }

  /** From w to w2 the pod has come to own exactly its requests on the node, created; no other pod's claim changed. */
  ghost predicate Conserved(w: World, w2: World, pod: string, node: string, reqs: seq<Req>) {
    && OwnsExactly(w2.store, pod, node, reqs, Created) && OwnsExactly(w2.index, pod, node, reqs, Created)
    && OwnAnywhere(w2.store, pod) == Requested(pod, node, reqs, |reqs|) == OwnAnywhere(w2.index, pod)
    && |OwnAnywhere(w2.store, pod)| == |reqs|
    && SameForOthers(w.store, w2.store, pod) && SameForOthers(w.index, w2.index, pod)
  }

  /** PreBind leaves the pod nothing in the index outside the chosen node: ghosts go too. */
  lemma PreBindClearsGhosts(w: World, pod: string, node: string)
    requires CanPromote(w, pod, node) && Keyed(w.index) && Keyed(w.store)
    ensures var w' := PreBind(w, pod, node);
      && OwnAnywhere(w'.index, pod) == Own(w.index, pod, node)
      && (forall k :: k in w.index && k.pod == pod && k.node != node ==> k !in w'.index && k !in w'.store)
      && SameForOthers(w.store, w'.store, pod) && SameForOthers(w.index, w'.index, pod)
  {
    assert OwnAnywhere(PreBind(w, pod, node).index, pod) == Own(w.index, pod, node);
  }

  /**
   * Filter admits n slices of one profile with disjoint placements exactly when n free listed
   * placements exist on the GPUs that no other pod's staged claims hold.
   */
  lemma HomogeneousFilter(w: World, res: Resources, pod: string, node: string, reqs: seq<Req>, profile: string)
    requires NoDuplicates(res.gpus) && profile in res.table && SupportedSize(ProfileSize(res, profile))
    requires DisjointPlacements(res.table[profile], ProfileSize(res, profile))
    requires forall i :: 0 <= i < |reqs| ==> reqs[i].profile == profile
    ensures Filter(w, res, pod, node, reqs, {}).verdict == Success <==>
            |reqs| <= TotalFree(res, Snapshot(Purged(w, pod, node).index, res, pod, node), profile)
  {
    NoFaults(pod, node, reqs, |PlanOn(w, res, pod, node, reqs)|, 0);
    GreedyIsOptimal(res, Snapshot(Purged(w, pod, node).index, res, pod, node), profile, Profiles(reqs));
  }
}
