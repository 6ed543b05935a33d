/**
 * The scheduler plugin's methods, in the imperative form of the source. Each is proved against the
 * functions of SchedulerSpec, and each records the steps of the claim protocol it takes, so that an
 * uninterrupted call is one path of the state machine.
 */
module PluginModel {
  import opened Claims
  import opened SlotSearch
  import opened Greedy
  import opened SchedulerSpec
  import opened Protocol
  import opened ProtocolInvariant
  import opened Naming
  import Runs
  import opened Score

  // ---- requests ----

  datatype ContainerSpec = ContainerSpec(name: string, limits: map<string, int>)

  function ContainerReqs(name: string, profiles: seq<string>): (reqs: seq<Req>)
    ensures |reqs| == |profiles|
    ensures forall j :: 0 <= j < |reqs| ==> reqs[j] == Req(name, j, profiles[j])
  {
    seq(|profiles|, j requires 0 <= j < |profiles| => Req(name, j, profiles[j]))
  }

  function Flatten(cs: seq<ContainerSpec>, lists: seq<seq<string>>, n: nat): seq<Req>
    requires n <= |cs| && n <= |lists|
  {
    if n == 0 then [] else Flatten(cs, lists, n - 1) + ContainerReqs(cs[n - 1].name, lists[n - 1])
  }

  predicate DistinctNames(cs: seq<ContainerSpec>) {
    forall i, j :: 0 <= i < j < |cs| ==> cs[i].name != cs[j].name
  }

  lemma {:induction false} FlattenIsDistinct(cs: seq<ContainerSpec>, lists: seq<seq<string>>, n: nat)
    requires n <= |cs| && n <= |lists| && DistinctNames(cs)
    ensures DistinctReqs(Flatten(cs, lists, n))
    ensures forall r: Req :: r in Flatten(cs, lists, n) ==> exists i :: 0 <= i < n && cs[i].name == r.container
  {
    if n > 0 {
      FlattenIsDistinct(cs, lists, n - 1);
      var init, last := Flatten(cs, lists, n - 1), ContainerReqs(cs[n - 1].name, lists[n - 1]);
      forall r: Req | r in init + last
        ensures exists i :: 0 <= i < n && cs[i].name == r.container
      {
        if r in last { assert cs[n - 1].name == r.container; }
      }
      forall i, j | 0 <= i < j < |init + last|
        ensures var a, b := (init + last)[i], (init + last)[j]; a.container != b.container || a.ordinal != b.ordinal
      {
        if i < |init| <= j {
          assert (init + last)[i] in init;
        }
      }
    }
  }

  /** The slot search can handle every requested profile; the other profiles of the table do not matter. */
  predicate AllSearchable(res: Resources, reqs: seq<Req>) {
    forall i :: 0 <= i < |reqs| ==> res.Searchable(reqs[i].profile)
  }

  /** Some container of the pod asks for slices of the profile. */
  predicate Wants(cs: seq<ContainerSpec>, profile: string) {
    exists i :: 0 <= i < |cs| && Asks(cs[i].limits, profile)
  }

  lemma {:induction false} RequestsAreWanted(cs: seq<ContainerSpec>, lists: seq<seq<string>>, n: nat)
    requires |lists| == |cs| && n <= |cs|
    requires forall i :: 0 <= i < |cs| ==> Tally(lists[i], cs[i].limits, cs[i].limits.Keys)
    ensures forall r: Req :: r in Flatten(cs, lists, n) ==> Wants(cs, r.profile)
  {
    hide Tally, Asks;
    if n > 0 {
      RequestsAreWanted(cs, lists, n - 1);
      forall r: Req | r in ContainerReqs(cs[n - 1].name, lists[n - 1])
        ensures Wants(cs, r.profile)
      {
        ListedIsAsked(lists[n - 1], cs[n - 1].limits, r.profile);
      }
    }
  }

  /** How often a container appears with a profile among the first n requests. */
  function CountOf(reqs: seq<Req>, container: string, profile: string): nat {
    if reqs == [] then 0
    else CountOf(reqs[..|reqs| - 1], container, profile)
         + if reqs[|reqs| - 1].container == container && reqs[|reqs| - 1].profile == profile then 1 else 0
  }

  lemma {:induction false} CountOfConcat(a: seq<Req>, b: seq<Req>, container: string, profile: string)
    ensures CountOf(a + b, container, profile) == CountOf(a, container, profile) + CountOf(b, container, profile)
  {
    if b == [] {
      assert a + b == a;
    } else {
      CountOfConcat(a, b[..|b| - 1], container, profile);
      assert (a + b)[..|a + b| - 1] == a + b[..|b| - 1];
    }
  }

  lemma {:induction false} CountOfContainer(name: string, profiles: seq<string>, container: string, profile: string)
    ensures CountOf(ContainerReqs(name, profiles), container, profile) ==
            if name == container then multiset(profiles)[profile] else 0
  {
    if profiles != [] {
      var n := |profiles| - 1;
      CountOfContainer(name, profiles[..n], container, profile);
      assert ContainerReqs(name, profiles)[..n] == ContainerReqs(name, profiles[..n]);
      assert profiles == profiles[..n] + [profiles[n]];
    }
  }

  lemma {:induction false} FlattenCounts(cs: seq<ContainerSpec>, lists: seq<seq<string>>, n: nat, i: nat,
                                         profile: string)
    requires n <= |cs| && n <= |lists| && DistinctNames(cs) && i < |cs| && i < |lists|
    ensures CountOf(Flatten(cs, lists, n), cs[i].name, profile) == if i < n then multiset(lists[i])[profile] else 0
  {
    if n > 0 {
      FlattenCounts(cs, lists, n - 1, i, profile);
      CountOfConcat(Flatten(cs, lists, n - 1), ContainerReqs(cs[n - 1].name, lists[n - 1]), cs[i].name, profile);
      CountOfContainer(cs[n - 1].name, lists[n - 1], cs[i].name, profile);
    }
  }

  /** The requests are exactly what the containers ask for: of each profile as many as its limits say. */
  lemma RequestsMeetDemand(cs: seq<ContainerSpec>, lists: seq<seq<string>>, i: nat, profile: string)
    requires |lists| == |cs| && DistinctNames(cs) && i < |cs|
    requires forall j :: 0 <= j < |cs| ==> Tally(lists[j], cs[j].limits, cs[j].limits.Keys)
    ensures CountOf(Flatten(cs, lists, |cs|), cs[i].name, profile) == Demand(cs[i].limits, profile)
  {
    FlattenCounts(cs, lists, |cs|, i, profile);
  }

  /** The requests of a pod, container by container, each container's limits in some order. */
  method ListRequests(cs: seq<ContainerSpec>) returns (reqs: seq<Req>, ghost lists: seq<seq<string>>)
    requires DistinctNames(cs)
    ensures |lists| == |cs| && reqs == Flatten(cs, lists, |cs|) && DistinctReqs(reqs)
    ensures forall i :: 0 <= i < |cs| ==> Tally(lists[i], cs[i].limits, cs[i].limits.Keys)
    ensures forall r :: r in reqs ==> Wants(cs, r.profile)
    ensures forall i, p :: 0 <= i < |cs| ==> CountOf(reqs, cs[i].name, p) == Demand(cs[i].limits, p)
  {
    hide Tally, Wants, CountOf, Demand;
    reqs, lists := [], [];
    var i := 0;
    while i < |cs|
      invariant 0 <= i <= |cs| && |lists| == i
      invariant reqs == Flatten(cs, lists, i)
      invariant forall j :: 0 <= j < i ==> Tally(lists[j], cs[j].limits, cs[j].limits.Keys)
    {
      var profiles := ExtractProfileNames(cs[i].limits);
      ghost var before, wider := lists, lists + [profiles];
      FlattenPrefix(cs, before, wider, i);
      var j := 0;
      while j < |profiles|
        invariant 0 <= j <= |profiles|
        invariant reqs == Flatten(cs, before, i) + ContainerReqs(cs[i].name, profiles)[..j]
      {
        reqs := reqs + [Req(cs[i].name, j, profiles[j])];
        j := j + 1;
      }
      assert ContainerReqs(cs[i].name, profiles)[..j] == ContainerReqs(cs[i].name, profiles);
      lists := wider;
      i := i + 1;
    }
    FlattenIsDistinct(cs, lists, |cs|);
    RequestsAreWanted(cs, lists, |cs|);
    forall k, p | 0 <= k < |cs|
      ensures CountOf(reqs, cs[k].name, p) == Demand(cs[k].limits, p)
    {
      RequestsMeetDemand(cs, lists, k, p);
    }
  }

  lemma {:induction false} FlattenPrefix(cs: seq<ContainerSpec>, a: seq<seq<string>>, b: seq<seq<string>>, n: nat)
    requires n <= |cs| && n <= |a| <= |b| && a <= b
    ensures Flatten(cs, a, n) == Flatten(cs, b, n)
  {
    if n > 0 { FlattenPrefix(cs, a, b, n - 1); }
  }

  // ---- planning ----

  /** The GPU loop: the first usable GPU with a free start. */
  method FindSpot(res: Resources, occ: Tables, profile: string) returns (spot: Option<Spot>)
    requires res.Searchable(profile)
    ensures spot == Choose(res, occ, profile)
  {
    var i := 0;
    while i < |res.gpus|
      invariant 0 <= i <= |res.gpus|
      invariant Choose(res, occ, profile, 0) == Choose(res, occ, profile, i)
    {
      var g := res.gpus[i];
      if g in occ {
        var newStart := GetStartIndex(res, profile, occ[g]);
        if newStart != NO_START {
          return Some(Spot(g, newStart));
        }
      }
      i := i + 1;
    }
    return None;
  }

  /** The plan, split into what has been placed and what is left. */
  ghost predicate Planned(res: Resources, occ0: Tables, reqs: seq<Req>, spots: seq<Spot>, occ: Tables) {
    |spots| <= |reqs| && Plan(res, occ0, Profiles(reqs)) == spots + Plan(res, occ, Profiles(reqs)[|spots|..])
  }

  lemma PlannedStart(res: Resources, occ: Tables, reqs: seq<Req>)
    ensures Planned(res, occ, reqs, [], occ)
  {
  }

  lemma PlannedStep(res: Resources, occ0: Tables, reqs: seq<Req>, spots: seq<Spot>, occ: Tables)
    requires Planned(res, occ0, reqs, spots, occ) && |spots| < |reqs|
    ensures var choice := Choose(res, occ, reqs[|spots|].profile);
      && (choice.None? ==> Plan(res, occ0, Profiles(reqs)) == spots)
      && (choice.Some? ==> (
            && choice.value.gpu in occ
            && spots + [choice.value] <= Plan(res, occ0, Profiles(reqs))
            && Planned(res, occ0, reqs, spots + [choice.value],
                       Mark(occ, choice.value, ProfileSize(res, reqs[|spots|].profile)))))
  {
  }

  // ---- how a Filter may end ----

  lemma {:induction false} StagedPrefix(res: Resources, pod: string, node: string, reqs: seq<Req>, a: seq<Spot>,
                                        b: seq<Spot>, n: nat)
    requires n <= |a| && n <= |b| && n <= |reqs| && a <= b
    ensures StagedClaims(res, pod, node, reqs, a, n) == StagedClaims(res, pod, node, reqs, b, n)
  {
    if n > 0 { StagedPrefix(res, pod, node, reqs, a, b, n - 1); }
  }

  ghost predicate FaultFree(pod: string, node: string, reqs: seq<Req>, faults: set<Key>, n: nat)
    requires n <= |reqs|
  {
    forall j :: 0 <= j < n ==> KeyOf(pod, node, reqs[j]) !in faults
  }

  lemma FinishPlaced(w: World, res: Resources, pod: string, node: string, reqs: seq<Req>, faults: set<Key>,
                     spots: seq<Spot>)
    requires spots == PlanOn(w, res, pod, node, reqs) && FaultFree(pod, node, reqs, faults, |spots|)
    ensures var w1, staged := Purged(w, pod, node), StagedClaims(res, pod, node, reqs, spots, |spots|);
      Filter(w, res, pod, node, reqs, faults) ==
        if |spots| < |reqs| then Outcome(World(w1.store, w1.index + staged), Unschedulable)
        else Outcome(World(w1.store + staged, w1.index + staged), Success)
    ensures !HidesError(w, pod, Visit(node, res, reqs, faults))
  {
    hide PlanOn, StagedClaims, Own;
    var w1 := Purged(w, pod, node);
    assert w1.store + map[] == w1.store;
    assert FirstFault(pod, node, reqs, faults, |spots|) == |spots|;
  }

  lemma FinishFault(w: World, res: Resources, pod: string, node: string, reqs: seq<Req>, faults: set<Key>,
                    spots: seq<Spot>)
    requires spots <= PlanOn(w, res, pod, node, reqs) && |spots| < |PlanOn(w, res, pod, node, reqs)|
    requires FaultFree(pod, node, reqs, faults, |spots|) && KeyOf(pod, node, reqs[|spots|]) in faults
    ensures Filter(w, res, pod, node, reqs, faults) ==
            Outcome(Purged(w, pod, node), if spots == [] then Error else Success)
    ensures HidesError(w, pod, Visit(node, res, reqs, faults)) <==> spots != []
  {
    hide PlanOn, StagedClaims, Own;
    var all, w1 := PlanOn(w, res, pod, node, reqs), Purged(w, pod, node);
    assert FirstFault(pod, node, reqs, faults, |all|) == |spots|;
    assert w1.store + map[] == w1.store && w1.index + map[] == w1.index;
  }

  // ---- the plugin ----

  ghost predicate Connected(cfg: Config, s: State, s': State) {
    exists a :: Step(cfg, s, a, s')
  }

  /** States joined by protocol steps, from an empty cluster. */
  ghost predicate Path(cfg: Config, trace: seq<State>) {
    trace != [] && Init(trace[0]) && forall i :: 0 <= i < |trace| - 1 ==> Connected(cfg, trace[i], trace[i + 1])
  }

  /** A recorded path is a run of the protocol, so whatever holds of every run holds of it. */
  lemma {:induction false} PathIsRun(cfg: Config, trace: seq<State>) returns (actions: seq<Action>)
    requires Path(cfg, trace)
    ensures Runs.IsRun(cfg, trace, actions)
  {
    hide Step;
    if |trace| == 1 {
      actions := [];
    } else {
      var n := |trace| - 1;
      PathShrinks(cfg, trace);
      var init := PathIsRun(cfg, trace[..n]);
      assert Connected(cfg, trace[n - 1], trace[n - 1 + 1]);
      var a :| Step(cfg, trace[n - 1], a, trace[n]);
      actions := init + [a];
      forall i | 0 <= i < n
        ensures Step(cfg, trace[i], actions[i], trace[i + 1])
      {
        if i < n - 1 { assert Step(cfg, trace[..n][i], init[i], trace[..n][i + 1]); }
      }
    }
  }

  lemma PathShrinks(cfg: Config, trace: seq<State>)
    requires Path(cfg, trace) && |trace| > 1
    ensures Path(cfg, trace[..|trace| - 1])
  {
    hide Connected;
    var t := trace[..|trace| - 1];
    forall i | 0 <= i < |t| - 1
      ensures Connected(cfg, t[i], t[i + 1])
    {
      assert Connected(cfg, trace[i], trace[i + 1]);
    }
  }

  /** Every state of a recorded path satisfies the protocol invariant. */
  lemma PathKeepsInv(cfg: Config, trace: seq<State>, i: nat)
    requires Path(cfg, trace) && i < |trace|
    ensures Inv(cfg, trace[i])
  {
    hide Inv, Path, Runs.IsRun;
    var actions := PathIsRun(cfg, trace);
    Runs.RunKeepsInv(cfg, trace, actions, i);
  }

  /** The state with other claims and one Filter call moved. */
  ghost function With(s: State, store: ClaimMap, index: ClaimMap, node: string, r: Run): State {
    s.(store := store, index := index, runs := s.runs[node := r])
  }

  lemma WithMoved(s: State, store: ClaimMap, index: ClaimMap, node: string, r: Run, r': Run)
    ensures Moved(With(s, store, index, node, r), node, r') == With(s, store, index, node, r')
    ensures forall st: ClaimMap, ix: ClaimMap ::
      With(With(s, store, index, node, r), st, ix, node, r') == With(s, st, ix, node, r')
  {
  }

  /** `resources` is None when the recorded node resources do not parse. */
  datatype Accelerator = Accelerator(kind: string, resources: Option<Resources>)

  datatype NodeInfo = NodeInfo(name: string, migCapable: bool, accelerator: Option<Accelerator>) {
    /** The node is labelled MIG capable and has a NodeAccelerator of the supported kind. */
    predicate Eligible() {
      migCapable && accelerator.Some? && (accelerator.value.kind == "" || accelerator.value.kind == "nvidia-mig")
    }

    /** ... and its recorded resources parse. */
    predicate Usable() {
      Eligible() && accelerator.value.resources.Some?
    }
  }

  /** No Filter call is at work on the node. */
  ghost predicate Free(s: State, node: string) {
    node in s.runs ==> s.runs[node].pc.AtDone?
  }

  /** The ended call passed or not, and it holds its requests exactly when it passed without hiding an error. */
  ghost predicate EndsAs(r: Run, w: World, pod: string, node: string, res: Resources, reqs: seq<Req>, faults: set<Key>,
                         v: Verdict)
  {
    && r.pc == AtDone(v == Success) && r.reqs == reqs
    && (Satisfied(r) <==> v == Success && !HidesError(w, pod, Visit(node, res, reqs, faults)))
  }

  class Plugin {
    var store: ClaimMap
    var index: ClaimMap
    ghost const cfg: Config
    ghost var trace: seq<State>

    /** A scheduler on an empty cluster. */
    constructor (ghost config: Config)
      ensures Valid() && cfg == config && store == index == map[] && Init(Now())
    {
      store, index := map[], map[];
      cfg := config;
      trace := [State(map[], map[], None, map[], map[], {}, {})];
    }

    ghost function Now(): State
      requires trace != []
      reads this
    {
      trace[|trace| - 1]
    }

    /** The two maps are those of the last state of a run of the protocol. */
    ghost predicate Valid()
      reads this
    {
      trace != [] && Path(cfg, trace) && Now().store == store && Now().index == index
    }

    /** Records one protocol step. */
    ghost method Record(a: Action, s': State)
      requires trace != [] && Path(cfg, trace) && Step(cfg, Now(), a, s')
      modifies this`trace
      ensures trace == old(trace) + [s'] && Path(cfg, trace) && Now() == s'
    {
      hide Step;
      assert Connected(cfg, Now(), s');
      trace := trace + [s'];
    }

    /** Deletes one old claim, from the store and then from the index. */
    method DropOld(node: string, k: Key)
      requires Valid() && Running(Now(), node) && Now().runs[node].pc.AtPurge? && k in Now().runs[node].items
      modifies this
      ensures Valid() && old(trace) <= trace
      ensures store == old(store) - {k} && index == old(index) - {k}
      ensures Now() == old(With(Now(), store - {k}, index - {k}, node,
                                Now().runs[node].(items := Now().runs[node].items - {k})))
    {
      hide Path, Step;
      ghost var s, r := Now(), Now().runs[node];
      ghost var r1, r2 := r.(pc := AtPurgeIndex(k), items := r.items - {k}), r.(items := r.items - {k});
      store := store - {k};
      ghost var s1 := With(s, store, index, node, r1);
      FilterStepIs(cfg, s, PurgeStore(node, k), s1);
      Record(PurgeStore(node, k), s1);
      index := index - {k};
      ghost var s2 := With(s, store, index, node, r2);
      WithMoved(s, store, s.index, node, r1, r2);
      FilterStepIs(cfg, s1, PurgeIndexed(node), s2);
      Record(PurgeIndexed(node), s2);
    }

    /** The loop that removes the pod's old claims on the node. */
    method PurgeOwn(pod: string, node: string)
      requires Valid() && Running(Now(), node) && Now().cycle == Some(pod)
      requires Now().runs[node].pc.AtPurge? && Now().runs[node].items == Own(index, pod, node)
      modifies this
      ensures Valid() && old(trace) <= trace
      ensures World(store, index) == old(Purged(World(store, index), pod, node))
      ensures Now() == old(With(Now(), Purged(World(store, index), pod, node).store,
                                Purged(World(store, index), pod, node).index,
                                node, Now().runs[node].(items := {})))
    {
      hide Path, Step, Own;
      ghost var s0, r0 := Now(), Now().runs[node];
      var items := Own(index, pod, node);
      ghost var all, gone: set<Key> := items, {};
      SameWith(s0, node);
      while items != {}
        invariant Valid() && old(trace) <= trace
        invariant gone + items == all && gone !! items
        invariant store == s0.store - gone && index == s0.index - gone
        invariant Now() == With(s0, store, index, node, r0.(items := items))
        decreases |items|
      {
        var k :| k in items;
        WithMoved(s0, store, index, node, r0.(items := items), r0.(items := items - {k}));
        DropMore(s0.store, gone, k);
        DropMore(s0.index, gone, k);
        DropOld(node, k);
        items := items - {k};
        gone := gone + {k};
      }
      assert gone == all;
    }

    /** listGPUAllocations: the indexed claims on one GPU, in some order. */
    method ListGPUAllocations(node: string, gpu: string) returns (allocs: seq<Claim>)
      ensures forall c :: c in allocs <==> exists k :: k in index && index[k] == c && c.node == node && c.gpu == gpu
    {
      allocs := [];
      var todo := set k | k in index && index[k].node == node && index[k].gpu == gpu;
      ghost var done: set<Key> := {};
      while todo != {}
        invariant forall k :: k in todo || k in done <==> k in index && index[k].node == node && index[k].gpu == gpu
        invariant forall c :: c in allocs <==> exists k :: k in done && k in index && index[k] == c
        decreases |todo|
      {
        var k :| k in todo;
        allocs := allocs + [index[k]];
        todo := todo - {k};
        done := done + {k};
      }
    }

    /** One GPU as Filter sees it: skipped if another pod is staging there, else its slot table. */
    method ReadSlots(pod: string, node: string, gpu: string) returns (held: bool, slots: Slots)
      requires forall k :: k in index ==> InRange(index[k])
      ensures held <==> exists k ::
        k in index && index[k].node == node && index[k].gpu == gpu && index[k].phase == Staged && index[k].pod != pod
      ensures held == HeldByOther(index, node, gpu, pod)
      ensures !held ==> slots == Occupied(index, node, gpu, pod)
    {
      slots := [0, 0, 0, 0, 0, 0, 0, 0];
      var allocs := ListGPUAllocations(node, gpu);
      held := false;
      var i := 0;
      while i < |allocs|
        invariant 0 <= i <= |allocs|
        invariant !held && forall j :: 0 <= j < i ==> !(allocs[j].phase == Staged && allocs[j].pod != pod)
      {
        if allocs[i].phase == Staged && allocs[i].pod != pod {
          assert allocs[i] in allocs;
          return true, slots;
        }
        i := i + 1;
      }
      assert forall c :: c in allocs ==> !(c.phase == Staged && c.pod != pod);
      assert !HeldByOther(index, node, gpu, pod);
      slots := BuildAllocatedIndex(allocs, pod);
      SlotsAreOccupied(index, node, gpu, pod, allocs, slots);
    }

    /** Reads one GPU into the table of usable GPUs. */
    method ReadOne(pod: string, node: string, ghost i: nat, gpu: string, occ: Tables) returns (occ': Tables)
      requires Valid() && Running(Now(), node) && Now().cycle == Some(pod) && node in cfg && i < |cfg[node].gpus|
      requires cfg[node].gpus[i] == gpu
      requires Now().runs[node].pc == AtRead(i) && Now().runs[node].occ == occ
      requires forall k :: k in index ==> InRange(index[k])
      modifies this`trace
      ensures Valid() && old(trace) <= trace
      ensures occ' == if HeldByOther(index, node, gpu, pod) then occ else occ[gpu := Occupied(index, node, gpu, pod)]
      ensures Now() == With(old(Now()), store, index, node, old(Now().runs[node]).(pc := AtRead(i + 1), occ := occ'))
    {
      hide Path, Step, HeldByOther, Occupied;
      var held, slots := ReadSlots(pod, node, gpu);
      occ' := if held then occ else occ[gpu := slots];
      ghost var s' := With(Now(), store, index, node, Now().runs[node].(pc := AtRead(i + 1), occ := occ'));
      FilterStepIs(cfg, Now(), ReadGpu(node), s');
      Record(ReadGpu(node), s');
    }

    /** The loop that reads every GPU of the node. */
    method ReadTables(pod: string, node: string, res: Resources) returns (occ: Tables)
      requires Valid() && Running(Now(), node) && Now().cycle == Some(pod) && node in cfg && cfg[node] == res
      requires Now().runs[node].pc == AtRead(0) && Now().runs[node].occ == map[]
      requires forall k :: k in index ==> InRange(index[k])
      modifies this`trace
      ensures Valid() && old(trace) <= trace
      ensures occ == Snapshot(index, res, pod, node)
      ensures Now() == With(old(Now()), store, index, node, old(Now().runs[node]).(pc := AtPlace, occ := occ))
    {
      hide Path, Step, HeldByOther, Occupied;
      ghost var s0, r0 := Now(), Now().runs[node];
      occ := map[];
      var i := 0;
      SameWith(s0, node);
      while i < |res.gpus|
        invariant 0 <= i <= |res.gpus|
        invariant Valid() && old(trace) <= trace
        invariant Now() == With(s0, store, index, node, r0.(pc := AtRead(i), occ := occ))
        invariant forall g :: g in occ <==> g in res.gpus[..i] && !HeldByOther(index, node, g, pod)
        invariant forall g :: g in occ ==> occ[g] == Occupied(index, node, g, pod)
      {
        ghost var before := occ;
        assert res.gpus[..i + 1] == res.gpus[..i] + [res.gpus[i]];
        occ := ReadOne(pod, node, i, res.gpus[i], occ);
        WithMoved(s0, store, index, node, r0.(pc := AtRead(i), occ := before), r0.(pc := AtRead(i + 1), occ := occ));
        i := i + 1;
      }
      assert res.gpus[..i] == res.gpus;
      ghost var r1, r2 := r0.(pc := AtRead(i), occ := occ), r0.(pc := AtPlace, occ := occ);
      WithMoved(s0, store, index, node, r1, r2);
      FilterStepIs(cfg, Now(), ReadEnd(node), With(s0, store, index, node, r2));
      Record(ReadEnd(node), With(s0, store, index, node, r2));
    }

    /** Create: the claim appears in the store without a status. */
    method CreateClaim(pod: string, node: string, res: Resources, r: Req, spot: Spot)
      requires Valid() && Placing(cfg, Now(), node) && Now().cycle == Some(pod) && cfg[node] == res
      requires Now().runs[node].reqs[|Now().runs[node].done|] == r
      requires Choice(cfg, Now(), node) == Some(spot) && KeyOf(pod, node, r) !in store
      modifies this
      ensures Valid() && old(trace) <= trace
      ensures var k, want := KeyOf(pod, node, r), ClaimOf(res, pod, node, r, spot).(phase := Unset);
        && store == old(store)[k := want] && index == old(index)
        && Now() == With(old(Now()), store, index, node, old(Now().runs[node]).(pc := AtStage(k, want)))
    {
      hide Path, Step, Choice;
      var k, want := KeyOf(pod, node, r), ClaimOf(res, pod, node, r, spot).(phase := Unset);
      ghost var s0 := Now();
      store := store[k := want];
      ghost var s1 := With(s0, store, index, node, s0.runs[node].(pc := AtStage(k, want)));
      FilterStepIs(cfg, s0, Create(node), s1);
      Record(Create(node), s1);
    }

    /** The status update to staged. */
    method StageClaim(node: string, k: Key, want: Claim)
      requires Valid() && Running(Now(), node) && Now().runs[node].pc == AtStage(k, want)
      requires k in store && store[k] == want
      modifies this
      ensures Valid() && old(trace) <= trace
      ensures var got := want.(phase := Staged);
        && store == old(store)[k := got] && index == old(index)
        && Now() == With(old(Now()), store, index, node, old(Now().runs[node]).(pc := AtPublish(k, want, got)))
    {
      hide Path, Step;
      ghost var s0 := Now();
      store := store[k := store[k].(phase := Staged)];
      ghost var s1 := With(s0, store, index, node, s0.runs[node].(pc := AtPublish(k, want, store[k])));
      FilterStepIs(cfg, s0, Stage(node), s1);
      Record(Stage(node), s1);
    }

    /** The staged claim enters the index and the local slot table. */
    method PublishClaim(node: string, k: Key, want: Claim, got: Claim, occ: Tables) returns (occ': Tables)
      requires Valid() && Running(Now(), node) && Now().runs[node].pc == AtPublish(k, want, got)
      requires Now().runs[node].occ == occ && want.gpu in occ
      modifies this
      ensures Valid() && old(trace) <= trace
      ensures occ' == Mark(occ, Spot(want.gpu, want.start), want.size)
      ensures store == old(store) && index == old(index)[k := got]
      ensures Now() == With(old(Now()), store, index, node,
                            old(Now().runs[node]).(pc := AtPlace, occ := occ',
                                                   done := old(Now().runs[node]).done + [k]))
    {
      hide Path, Step;
      ghost var s0 := Now();
      index := index[k := got];
      occ' := Mark(occ, Spot(want.gpu, want.start), want.size);
      ghost var s1 := With(s0, store, index, node,
                           s0.runs[node].(pc := AtPlace, occ := occ', done := s0.runs[node].done + [k]));
      FilterStepIs(cfg, s0, Publish(node), s1);
      Record(Publish(node), s1);
    }

    /** A refused call starts the rollback of the claims made so far. */
    ghost method Refuse(node: string, a: Action, todo: seq<Key>, passed: bool)
      requires Valid() && Running(Now(), node)
      requires FilterMove(cfg, Now(), a,
                          With(Now(), store, index, node, Now().runs[node].(pc := AtAbort(todo, passed))))
      modifies this`trace
      ensures Valid() && old(trace) <= trace
      ensures Now() == With(old(Now()), store, index, node, old(Now().runs[node]).(pc := AtAbort(todo, passed)))
    {
      hide Path, Step, FilterMove;
      ghost var s1 := With(Now(), store, index, node, Now().runs[node].(pc := AtAbort(todo, passed)));
      FilterStepIs(cfg, Now(), a, s1);
      Record(a, s1);
    }

    /** Creates, stages and publishes the claim of one request; neither API call is refused. */
    method Place(pod: string, node: string, res: Resources, r: Req, spot: Spot, occ: Tables) returns (occ': Tables)
      requires Valid() && Placing(cfg, Now(), node) && Now().cycle == Some(pod) && cfg[node] == res
      requires Now().runs[node].occ == occ && Now().runs[node].reqs[|Now().runs[node].done|] == r
      requires Choice(cfg, Now(), node) == Some(spot) && spot.gpu in occ && KeyOf(pod, node, r) !in store
      modifies this
      ensures Valid() && old(trace) <= trace
      ensures occ' == Mark(occ, spot, ProfileSize(res, r.profile))
      ensures var k, c := KeyOf(pod, node, r), ClaimOf(res, pod, node, r, spot);
        && store == old(store)[k := c] && index == old(index)[k := c]
        && Now() == With(old(Now()), store, index, node,
                         old(Now().runs[node]).(occ := occ', done := old(Now().runs[node]).done + [k]))
    {
      hide Path, Choice;
      ghost var s0, r0 := Now(), Now().runs[node];
      var k, c := KeyOf(pod, node, r), ClaimOf(res, pod, node, r, spot);
      var want := c.(phase := Unset);
      CreateClaim(pod, node, res, r, spot);
      ghost var r1, created := Now().runs[node], store;
      StageClaim(node, k, want);
      ghost var r2 := Now().runs[node];
      WithMoved(s0, created, index, node, r1, r2);
      occ' := PublishClaim(node, k, want, c, occ);
      WithMoved(s0, store, s0.index, node, r2, Now().runs[node]);
      assert store == old(store)[k := c];
    }

    /** Deletes one staged claim from the store only. */
    method UndoOne(node: string, ghost todo: seq<Key>, k: Key)
      requires Valid() && Running(Now(), node) && todo != [] && todo[0] == k && Now().runs[node].pc == AtUndo(todo)
      modifies this
      ensures Valid() && old(trace) <= trace
      ensures store == old(store) - {k} && index == old(index)
      ensures Now() == With(old(Now()), store, index, node, old(Now().runs[node]).(pc := AtUndo(todo[1..])))
    {
      hide Path, Step;
      ghost var s := Now();
      store := store - {k};
      ghost var s1 := With(s, store, index, node, s.runs[node].(pc := AtUndo(todo[1..])));
      FilterStepIs(cfg, s, UndoStore(node), s1);
      Record(UndoStore(node), s1);
    }

    /** No room: the staged claims leave the store; the index keeps them. */
    method Undo(node: string, claims: seq<Key>)
      requires Valid() && Running(Now(), node) && Now().runs[node].pc == AtUndo(claims)
      modifies this
      ensures Valid() && old(trace) <= trace
      ensures store == old(store) - Keys(claims) && index == old(index)
      ensures Now() == With(old(Now()), store, index, node, old(Now().runs[node]).(pc := AtDone(false)))
    {
      hide Path, Step;
      ghost var s0, r0 := Now(), Now().runs[node];
      SameWith(s0, node);
      var i := 0;
      while i < |claims|
        invariant 0 <= i <= |claims|
        invariant Valid() && old(trace) <= trace
        invariant store == s0.store - Keys(claims[..i]) && index == s0.index
        invariant Now() == With(s0, store, index, node, r0.(pc := AtUndo(claims[i..])))
      {
        TakeOne(claims, i);
        DropMore(s0.store, Keys(claims[..i]), claims[i]);
        WithMoved(s0, store, index, node, r0.(pc := AtUndo(claims[i..])), r0.(pc := AtUndo(claims[i + 1..])));
        UndoOne(node, claims[i..], claims[i]);
        i := i + 1;
      }
      assert claims[..i] == claims;
      ghost var s1 := Now();
      WithMoved(s0, store, index, node, r0.(pc := AtUndo(claims[i..])), r0.(pc := AtDone(false)));
      FilterStepIs(cfg, s1, UndoEnd(node), With(s0, store, index, node, r0.(pc := AtDone(false))));
      Record(UndoEnd(node), With(s0, store, index, node, r0.(pc := AtDone(false))));
    }

    /** Rolls one claim back, from the store and then from the index. */
    method AbortOne(node: string, ghost todo: seq<Key>, k: Key, ghost passed: bool)
      requires Valid() && Running(Now(), node) && todo != [] && todo[0] == k
      requires Now().runs[node].pc == AtAbort(todo, passed)
      modifies this
      ensures Valid() && old(trace) <= trace
      ensures store == old(store) - {k} && index == old(index) - {k}
      ensures Now() == With(old(Now()), store, index, node, old(Now().runs[node]).(pc := AtAbort(todo[1..], passed)))
    {
      hide Path, Step;
      ghost var s, r := Now(), Now().runs[node];
      ghost var r1, r2 := r.(pc := AtAbortIndex(k, todo[1..], passed)), r.(pc := AtAbort(todo[1..], passed));
      store := store - {k};
      ghost var s1 := With(s, store, index, node, r1);
      FilterStepIs(cfg, s, AbortStore(node), s1);
      Record(AbortStore(node), s1);
      index := index - {k};
      WithMoved(s, store, s.index, node, r1, r2);
      FilterStepIs(cfg, s1, AbortIndexed(node), With(s, store, index, node, r2));
      Record(AbortIndexed(node), With(s, store, index, node, r2));
    }

    /** The rollback after a refused API call. */
    method Abort(node: string, claims: seq<Key>, ghost passed: bool)
      requires Valid() && Running(Now(), node) && Now().runs[node].pc == AtAbort(claims, passed)
      modifies this
      ensures Valid() && old(trace) <= trace
      ensures store == old(store) - Keys(claims) && index == old(index) - Keys(claims)
      ensures Now() == With(old(Now()), store, index, node, old(Now().runs[node]).(pc := AtDone(passed)))
    {
      hide Path, Step;
      ghost var s0, r0 := Now(), Now().runs[node];
      SameWith(s0, node);
      var i := 0;
      while i < |claims|
        invariant 0 <= i <= |claims|
        invariant Valid() && old(trace) <= trace
        invariant store == s0.store - Keys(claims[..i]) && index == s0.index - Keys(claims[..i])
        invariant Now() == With(s0, store, index, node, r0.(pc := AtAbort(claims[i..], passed)))
      {
        TakeOne(claims, i);
        DropMore(s0.store, Keys(claims[..i]), claims[i]);
        DropMore(s0.index, Keys(claims[..i]), claims[i]);
        WithMoved(s0, store, index, node, r0.(pc := AtAbort(claims[i..], passed)),
                  r0.(pc := AtAbort(claims[i + 1..], passed)));
        AbortOne(node, claims[i..], claims[i], passed);
        i := i + 1;
      }
      assert claims[..i] == claims;
      ghost var s1 := Now();
      WithMoved(s0, store, index, node, r0.(pc := AtAbort(claims[i..], passed)), r0.(pc := AtDone(passed)));
      FilterStepIs(cfg, s1, AbortEnd(node), With(s0, store, index, node, r0.(pc := AtDone(passed))));
      Record(AbortEnd(node), With(s0, store, index, node, r0.(pc := AtDone(passed))));
    }

    /** The Filter call is placing: i requests are staged, published, and planned for. */
    ghost predicate Placed(s0: State, w1: World, pod: string, node: string, res: Resources, reqs: seq<Req>,
                           occ0: Tables,
                           faults: set<Key>, spots: seq<Spot>, occ: Tables, claims: seq<Key>)
      reads this
    {
      && Valid() && Planned(res, occ0, reqs, spots, occ) && |spots| == |claims|
      && FaultFree(pod, node, reqs, faults, |claims|)
      && (forall j :: 0 <= j < |claims| ==> claims[j] == KeyOf(pod, node, reqs[j]))
      && World(store, index) == Plus(w1, StagedClaims(res, pod, node, reqs, spots, |spots|))
      && Now() == With(s0, store, index, node, Run(AtPlace, {}, reqs, occ, claims))
    }

    ghost method StartUndo(node: string)
      requires Valid() && Placing(cfg, Now(), node) && Choice(cfg, Now(), node).None?
      modifies this`trace
      ensures Valid() && old(trace) <= trace
      ensures Now() == With(old(Now()), store, index, node,
                            old(Now().runs[node]).(pc := AtUndo(old(Now().runs[node]).done)))
    {
      hide Path, Step, Choice;
      ghost var s1 := With(Now(), store, index, node, Now().runs[node].(pc := AtUndo(Now().runs[node].done)));
      FilterStepIs(cfg, Now(), NoRoom(node), s1);
      Record(NoRoom(node), s1);
    }

    /** No room for the next request: roll back the store. */
    method GiveUpNoRoom(ghost s0: State, ghost w1: World, pod: string, node: string, res: Resources, reqs: seq<Req>,
                        ghost occ0: Tables, ghost faults: set<Key>, ghost spots: seq<Spot>, ghost occ: Tables,
                        claims: seq<Key>)
      requires Placed(s0, w1, pod, node, res, reqs, occ0, faults, spots, occ, claims)
      requires s0.cycle == Some(pod) && node in cfg && cfg[node] == res && Unowned(w1, pod, node) && DistinctReqs(reqs)
      requires |claims| < |reqs| && Choose(res, occ, reqs[|claims|].profile).None?
      modifies this
      ensures Valid() && old(trace) <= trace
      ensures World(store, index) == World(w1.store, w1.index + StagedClaims(res, pod, node, reqs, spots, |spots|))
      ensures Now() == With(s0, store, index, node, Run(AtDone(false), {}, reqs, occ, claims))
    {
      hide Path, Step, Planned;
      ghost var r0 := Run(AtPlace, {}, reqs, occ, claims);
      WithMoved(s0, store, index, node, r0, r0.(pc := AtUndo(claims)));
      StartUndo(node);
      ClaimsAreStaged(w1, res, pod, node, reqs, spots, claims);
      ghost var before := store;
      Undo(node, claims);
      WithMoved(s0, before, index, node, r0.(pc := AtUndo(claims)), r0.(pc := AtDone(false)));
    }

    /** Create is refused for the next request: roll back the store and the index. */
    method GiveUpCreate(ghost s0: State, ghost w1: World, pod: string, node: string, res: Resources, reqs: seq<Req>,
                        ghost occ0: Tables, ghost faults: set<Key>, ghost spots: seq<Spot>, ghost occ: Tables,
                        claims: seq<Key>)
      requires Placed(s0, w1, pod, node, res, reqs, occ0, faults, spots, occ, claims)
      requires s0.cycle == Some(pod) && node in cfg && cfg[node] == res && Unowned(w1, pod, node) && DistinctReqs(reqs)
      requires |claims| < |reqs| && Choose(res, occ, reqs[|claims|].profile).Some?
      modifies this
      ensures Valid() && old(trace) <= trace
      ensures World(store, index) == w1
      ensures Now() == With(s0, store, index, node, Run(AtDone(claims != []), {}, reqs, occ, claims))
    {
      hide Path, Step, Planned;
      ghost var r0, passed := Run(AtPlace, {}, reqs, occ, claims), claims != [];
      WithMoved(s0, store, index, node, r0, r0.(pc := AtAbort(claims, passed)));
      Refuse(node, CreateRefused(node), claims, passed);
      ClaimsAreStaged(w1, res, pod, node, reqs, spots, claims);
      ghost var st, ix := store, index;
      Abort(node, claims, passed);
      WithMoved(s0, st, ix, node, r0.(pc := AtAbort(claims, passed)), r0.(pc := AtDone(passed)));
    }

    /** Creates a claim whose status update is then refused. */
    method CreateUnstaged(pod: string, node: string, res: Resources, r: Req, spot: Spot)
      requires Valid() && Placing(cfg, Now(), node) && Now().cycle == Some(pod) && cfg[node] == res
      requires Now().runs[node].reqs[|Now().runs[node].done|] == r
      requires Choice(cfg, Now(), node) == Some(spot) && KeyOf(pod, node, r) !in store
      modifies this
      ensures Valid() && old(trace) <= trace
      ensures store.Keys == old(store).Keys + {KeyOf(pod, node, r)} && index == old(index)
      ensures forall k :: k in old(store) ==> store[k] == old(store)[k]
      ensures var done := old(Now().runs[node]).done;
        Now() == With(old(Now()), store, index, node,
                      old(Now().runs[node]).(pc := AtAbort(done + [KeyOf(pod, node, r)], done != [])))
    {
      hide Path, Step, Choice;
      ghost var s0, r0 := Now(), Now().runs[node];
      CreateClaim(pod, node, res, r, spot);
      ghost var r1 := Now().runs[node];
      WithMoved(s0, store, index, node, r1, r0.(pc := AtAbort(r0.done + [KeyOf(pod, node, r)], r0.done != [])));
      Refuse(node, StageRefused(node), r0.done + [KeyOf(pod, node, r)], r0.done != []);
    }

    /** The status update is refused for the next request: its claim is rolled back too. */
    method GiveUpStatus(ghost s0: State, ghost w1: World, pod: string, node: string, res: Resources, reqs: seq<Req>,
                        ghost occ0: Tables, ghost faults: set<Key>, ghost spots: seq<Spot>, ghost occ: Tables,
                        claims: seq<Key>, spot: Spot)
      requires Placed(s0, w1, pod, node, res, reqs, occ0, faults, spots, occ, claims)
      requires s0.cycle == Some(pod) && node in cfg && cfg[node] == res && Unowned(w1, pod, node) && DistinctReqs(reqs)
      requires |claims| < |reqs| && Choose(res, occ, reqs[|claims|].profile) == Some(spot)
      modifies this
      ensures Valid() && old(trace) <= trace
      ensures World(store, index) == w1
      ensures Now() == With(s0, store, index, node, Run(AtDone(claims != []), {}, reqs, occ, claims))
    {
      hide Path, Step, Planned;
      var k := KeyOf(pod, node, reqs[|claims|]);
      ghost var r0, passed := Run(AtPlace, {}, reqs, occ, claims), claims != [];
      ClaimsAreStaged(w1, res, pod, node, reqs, spots, claims);
      ghost var st0, ix := store, index;
      WithMoved(s0, st0, ix, node, r0, r0.(pc := AtAbort(claims + [k], passed)));
      CreateUnstaged(pod, node, res, reqs[|claims|], spot);
      ghost var st := store;
      OneMore(w1, claims, k, st0, st, ix);
      Abort(node, claims + [k], passed);
      WithMoved(s0, st, ix, node, r0.(pc := AtAbort(claims + [k], passed)), r0.(pc := AtDone(passed)));
    }

    /** The next request is placed. */
    method PlaceNext(ghost s0: State, ghost w1: World, pod: string, node: string, res: Resources, reqs: seq<Req>,
                     ghost occ0: Tables, ghost faults: set<Key>, ghost spots: seq<Spot>, occ: Tables, claims: seq<Key>,
                     spot: Spot) returns (occ': Tables)
      requires Placed(s0, w1, pod, node, res, reqs, occ0, faults, spots, occ, claims)
      requires s0.cycle == Some(pod) && node in cfg && cfg[node] == res && Unowned(w1, pod, node) && DistinctReqs(reqs)
      requires |claims| < |reqs| && Choose(res, occ, reqs[|claims|].profile) == Some(spot)
      requires KeyOf(pod, node, reqs[|claims|]) !in faults
      modifies this
      ensures old(trace) <= trace
      ensures Placed(s0, w1, pod, node, res, reqs, occ0, faults, spots + [spot], occ',
                     claims + [KeyOf(pod, node, reqs[|claims|])])
    {
      hide Path, Step, Planned, StagedClaims;
      ghost var r0, st, ix := Run(AtPlace, {}, reqs, occ, claims), store, index;
      ghost var r := reqs[|claims|];
      PlannedStep(res, occ0, reqs, spots, occ);
      ClaimsAreStaged(w1, res, pod, node, reqs, spots, claims);
      StagedGrows(w1, res, pod, node, reqs, spots, spot);
      occ' := Place(pod, node, res, reqs[|claims|], spot, occ);
      WithMoved(s0, st, ix, node, r0, Run(AtPlace, {}, reqs, occ', claims + [KeyOf(pod, node, r)]));
    }

    /** The Filter call has ended as the specification says. */
    ghost predicate Finished(s0: State, w: World, pod: string, node: string, res: Resources, reqs: seq<Req>,
                             faults: set<Key>, v: Verdict)
      reads this
    {
      && Valid()
      && Outcome(World(store, index), v) == SchedulerSpec.Filter(w, res, pod, node, reqs, faults)
      && exists r: Run :: Now() == With(s0, store, index, node, r) && EndsAs(r, w, pod, node, res, reqs, faults, v)
    }

    /** The Filter call is about to place its first request. */
    ghost predicate Ready(s0: State, w: World, pod: string, node: string, res: Resources, reqs: seq<Req>, occ0: Tables)
      reads this
    {
      && DistinctReqs(reqs) && AllSearchable(res, reqs) && s0.cycle == Some(pod) && node in cfg && cfg[node] == res
      && Unowned(Purged(w, pod, node), pod, node) && occ0 == Snapshot(Purged(w, pod, node).index, res, pod, node)
    }

    /** Ends the call when the next request cannot be placed, or its Create or status update is refused. */
    method Stop(ghost s0: State, ghost w: World, pod: string, node: string, res: Resources, reqs: seq<Req>,
                ghost occ0: Tables, createFaults: set<Key>, statusFaults: set<Key>, ghost spots: seq<Spot>,
                ghost occ: Tables, claims: seq<Key>, spot: Option<Spot>) returns (v: Verdict)
      requires Ready(s0, w, pod, node, res, reqs, occ0)
      requires Placed(s0, Purged(w, pod, node), pod, node, res, reqs, occ0, createFaults + statusFaults, spots, occ,
                      claims)
      requires |claims| < |reqs| && Choose(res, occ, reqs[|claims|].profile) == spot
      requires spot.None? || KeyOf(pod, node, reqs[|claims|]) in createFaults + statusFaults
      modifies this
      ensures old(trace) <= trace
      ensures Finished(s0, w, pod, node, res, reqs, createFaults + statusFaults, v)
    {
      hide Path, Step, Planned, StagedClaims, SchedulerSpec.Filter, Snapshot, Purged, Unowned;
      ghost var w1, faults := Purged(w, pod, node), createFaults + statusFaults;
      PlannedStep(res, occ0, reqs, spots, occ);
      if spot.None? {
        GiveUpNoRoom(s0, w1, pod, node, res, reqs, occ0, faults, spots, occ, claims);
        FinishPlaced(w, res, pod, node, reqs, faults, spots);
        return Unschedulable;
      }
      if KeyOf(pod, node, reqs[|claims|]) in createFaults {
        GiveUpCreate(s0, w1, pod, node, res, reqs, occ0, faults, spots, occ, claims);
      } else {
        GiveUpStatus(s0, w1, pod, node, res, reqs, occ0, faults, spots, occ, claims, spot.value);
      }
      FinishFault(w, res, pod, node, reqs, faults, spots);
      return if claims == [] then Error else Success;
    }

    /** All requests are placed. */
    ghost method Finish(s0: State, w: World, pod: string, node: string, res: Resources, reqs: seq<Req>, occ0: Tables,
                        faults: set<Key>, spots: seq<Spot>, occ: Tables, claims: seq<Key>)
      requires Ready(s0, w, pod, node, res, reqs, occ0) && |claims| == |reqs|
      requires Placed(s0, Purged(w, pod, node), pod, node, res, reqs, occ0, faults, spots, occ, claims)
      modifies this`trace
      ensures old(trace) <= trace && Finished(s0, w, pod, node, res, reqs, faults, Success)
    {
      hide Path, Step, Planned, StagedClaims, SchedulerSpec.Filter, Snapshot, Purged, Unowned;
      PlannedEnd(res, occ0, reqs, spots, occ);
      FinishPlaced(w, res, pod, node, reqs, faults, spots);
      FinishRun(s0, node, Run(AtPlace, {}, reqs, occ, claims));
    }

    /** The loop over the requests. */
    method PlaceAll(ghost w: World, pod: string, node: string, res: Resources, reqs: seq<Req>, occ0: Tables,
                    createFaults: set<Key>, statusFaults: set<Key>) returns (v: Verdict)
      requires Valid() && World(store, index) == Purged(w, pod, node)
      requires Ready(Now(), w, pod, node, res, reqs, occ0)
      requires node in Now().runs && Now().runs[node] == Run(AtPlace, {}, reqs, occ0, [])
      modifies this
      ensures old(trace) <= trace
      ensures Finished(old(Now()), w, pod, node, res, reqs, createFaults + statusFaults, v)
    {
      hide Path, Step, Planned, StagedClaims, Finished, Snapshot, Purged, Unowned;
      ghost var s0, w1, faults := Now(), Purged(w, pod, node), createFaults + statusFaults;
      ghost var spots: seq<Spot> := [];
      var occ, claims: seq<Key> := occ0, [];
      PlannedStart(res, occ0, reqs);
      SameWith(s0, node);
      PlusNothing(w1, res, pod, node, reqs);
      while |claims| < |reqs|
        invariant |claims| <= |reqs| && old(trace) <= trace
        invariant Placed(s0, w1, pod, node, res, reqs, occ0, faults, spots, occ, claims)
        decreases |reqs| - |claims|
      {
        hide Placed, Choose;
        var spot := FindSpot(res, occ, reqs[|claims|].profile);
        var k := KeyOf(pod, node, reqs[|claims|]);
        if spot.None? || k in createFaults || k in statusFaults {
          v := Stop(s0, w, pod, node, res, reqs, occ0, createFaults, statusFaults, spots, occ, claims, spot);
          return;
        }
        occ := PlaceNext(s0, w1, pod, node, res, reqs, occ0, faults, spots, occ, claims, spot.value);
        spots := spots + [spot.value];
        claims := claims + [k];
      }
      Finish(s0, w, pod, node, res, reqs, occ0, faults, spots, occ, claims);
      v := Success;
    }

    ghost method FinishRun(s0: State, node: string, r: Run)
      requires Valid() && Now() == With(s0, store, index, node, r) && s0.cycle.Some? && r.pc.AtPlace?
      requires |r.done| == |r.reqs|
      modifies this`trace
      ensures Valid() && old(trace) <= trace
      ensures Now() == With(s0, store, index, node, r.(pc := AtDone(true)))
    {
      hide Path, Step;
      WithMoved(s0, store, index, node, r, r.(pc := AtDone(true)));
      FilterStepIs(cfg, Now(), PlaceEnd(node), With(s0, store, index, node, r.(pc := AtDone(true))));
      Record(PlaceEnd(node), With(s0, store, index, node, r.(pc := AtDone(true))));
    }

    ghost method BeginRun(pod: string, node: string, reqs: seq<Req>)
      requires Valid() && Now().cycle == Some(pod) && node in cfg && Free(Now(), node) && DistinctReqs(reqs)
      modifies this`trace
      ensures Valid() && old(trace) <= trace
      ensures Now() == With(old(Now()), store, index, node, Run(AtPurge, Own(index, pod, node), reqs, map[], []))
    {
      hide Path, Step, Own;
      ghost var s1 := With(Now(), store, index, node, Run(AtPurge, Own(index, pod, node), reqs, map[], []));
      FilterStepIs(cfg, Now(), FilterBegin(node, reqs), s1);
      Record(FilterBegin(node, reqs), s1);
    }

    ghost method EndPurge(node: string)
      requires Valid() && Running(Now(), node) && Now().runs[node].pc.AtPurge? && Now().runs[node].items == {}
      modifies this`trace
      ensures Valid() && old(trace) <= trace
      ensures Now() == With(old(Now()), store, index, node,
        old(Now().runs[node]).(pc := if old(Now().runs[node]).reqs == [] then AtDone(true) else AtRead(0)))
    {
      hide Path, Step;
      ghost var r := Now().runs[node];
      ghost var s1 := With(Now(), store, index, node, r.(pc := if r.reqs == [] then AtDone(true) else AtRead(0)));
      FilterStepIs(cfg, Now(), PurgeEnd(node), s1);
      Record(PurgeEnd(node), s1);
    }

    /** Filter on an eligible node, its requests already listed. */
    method FilterNode(pod: string, node: string, res: Resources, reqs: seq<Req>, createFaults: set<Key>,
                      statusFaults: set<Key>)
      returns (v: Verdict)
      requires Valid() && Now().cycle == Some(pod) && Free(Now(), node)
      requires node in cfg && cfg[node] == res && DistinctReqs(reqs) && AllSearchable(res, reqs)
      modifies this
      ensures old(trace) <= trace
      ensures Finished(old(Now()), old(World(store, index)), pod, node, res, reqs, createFaults + statusFaults, v)
    {
      hide Path, Step, Inv, Purged, Own, Snapshot, SchedulerSpec.Filter, Unowned;
      ghost var s0, w := Now(), World(store, index);
      PathKeepsInv(cfg, trace, |trace| - 1);
      PurgedIsUnowned(cfg, s0, pod, node);
      BeginRun(pod, node, reqs);
      PurgeOwn(pod, node);
      ghost var r1 := Run(AtPurge, {}, reqs, map[], []);
      WithMoved(s0, s0.store, s0.index, node, Run(AtPurge, Own(s0.index, pod, node), reqs, map[], []), r1);
      ghost var w1 := World(store, index);
      EndPurge(node);
      ghost var r2 := Now().runs[node];
      WithMoved(s0, store, index, node, r1, r2);
      if reqs == [] {
        NothingAsked(w, res, pod, node, createFaults + statusFaults);
        return Success;
      }
      var occ := ReadTables(pod, node, res);
      WithMoved(s0, store, index, node, r2, Run(AtPlace, {}, reqs, occ, []));
      ghost var s3 := Now();
      v := PlaceAll(w, pod, node, res, reqs, occ, createFaults, statusFaults);
      FinishedFrom(s0, s3, Run(AtPlace, {}, reqs, occ, []), w, pod, node, res, reqs, createFaults + statusFaults, v);
    }

    ghost method FinishedFrom(s0: State, s1: State, r1: Run, w: World, pod: string, node: string, res: Resources,
                              reqs: seq<Req>, faults: set<Key>, v: Verdict)
      requires Finished(s1, w, pod, node, res, reqs, faults, v)
      requires s1 == With(s0, s1.store, s1.index, node, r1)
      ensures Finished(s0, w, pod, node, res, reqs, faults, v)
    {
      hide Path, SchedulerSpec.Filter;
      ghost var r: Run :| Now() == With(s1, store, index, node, r) && EndsAs(r, w, pod, node, res, reqs, faults, v);
      WithMoved(s0, s1.store, s1.index, node, r1, r);
      assert Now() == With(s0, store, index, node, r);
    }

    /**
     * Filter. An ineligible node is refused untouched, and so is one whose resources do not parse. On
     * a usable one the store, the index and the verdict are those of SchedulerSpec.Filter for some
     * order of the pod's limits, and the steps taken are a Filter call of the claim protocol.
     */
    method Filter(pod: string, info: Option<NodeInfo>, cs: seq<ContainerSpec>, createFaults: set<Key>,
                  statusFaults: set<Key>)
      returns (v: Verdict, ghost reqs: seq<Req>, ghost lists: seq<seq<string>>)
      requires Valid() && Now().cycle == Some(pod) && DistinctNames(cs)
      requires info.Some? && info.value.Usable() ==> (
        var n := info.value;
        && n.name in cfg && Free(Now(), n.name)
        && cfg[n.name] == n.accelerator.value.resources.value
        && forall p :: Wants(cs, p) ==> cfg[n.name].Searchable(p))
      modifies this
      ensures Valid() && old(trace) <= trace
      ensures info.None? ==> v == Error && unchanged(this)
      ensures info.Some? && (!info.value.migCapable || info.value.accelerator.None?) ==>
        v == Unschedulable && unchanged(this)
      ensures info.Some? && info.value.accelerator.Some? && info.value.accelerator.value.kind !in {"", "nvidia-mig"} ==>
        v == Unschedulable && unchanged(this)
      ensures (&& info.Some? && info.value.migCapable && info.value.accelerator.Some?
               && info.value.accelerator.value.kind in {"", "nvidia-mig"}
               && info.value.accelerator.value.resources.None?) ==> v == Error && unchanged(this)
      ensures (&& info.Some? && info.value.migCapable && info.value.accelerator.Some?
               && info.value.accelerator.value.kind in {"", "nvidia-mig"}
               && info.value.accelerator.value.resources.Some?) ==> (
        && |lists| == |cs| && reqs == Flatten(cs, lists, |cs|) && DistinctReqs(reqs)
        && (forall i :: 0 <= i < |cs| ==> Tally(lists[i], cs[i].limits, cs[i].limits.Keys))
        && Finished(old(Now()), old(World(store, index)), pod, info.value.name,
                    info.value.accelerator.value.resources.value,
                    reqs, createFaults + statusFaults, v))
    {
      reqs, lists := [], [];
      if info.None? {
        return Error, reqs, lists;
      }
      var node := info.value;
      if !node.migCapable || node.accelerator.None? {
        return Unschedulable, reqs, lists;
      }
      if node.accelerator.value.kind != "" && node.accelerator.value.kind != "nvidia-mig" {
        return Unschedulable, reqs, lists;
      }
      if node.accelerator.value.resources.None? {
        return Error, reqs, lists;
      }
      hide Path, Inv, Tally, Wants;
      var asked;
      asked, lists := ListRequests(cs);
      reqs := asked;
      v := FilterNode(pod, node.name, node.accelerator.value.resources.value, asked, createFaults, statusFaults);
    }

    /** Records one step of the pod's binding cycle. */
    ghost method RecordBind(a: Action, s': State)
      requires trace != [] && Path(cfg, trace) && BindMove(Now(), a, s')
      modifies this`trace
      ensures trace == old(trace) + [s'] && Path(cfg, trace) && Now() == s'
    {
      hide Path, Step, BindMove;
      BindStepIs(cfg, Now(), a, s');
      Record(a, s');
    }

    /** Promotes one claim, in the store and then in the index. */
    method PromoteClaim(pod: string, node: string, items: ClaimMap, k: Key)
      requires Valid() && pod in Now().binds && Now().binds[pod] == Promote(node, items) && k in items
      requires items[k].node == node && items[k].phase != Created && k in store
      modifies this
      ensures Valid() && old(trace) <= trace
      ensures store == old(store)[k := Promoted(old(store)[k])] && index == old(index)[k := Promoted(old(store)[k])]
      ensures Now() == old(Now()).(store := store, index := index,
                                   binds := old(Now()).binds[pod := Promote(node, items - {k})])
    {
      hide Path;
      ghost var s := Now();
      var updated := Promoted(store[k]);
      store := store[k := updated];
      ghost var s1 := s.(store := store, binds := s.binds[pod := PromoteIndex(node, items - {k}, k, updated)]);
      RecordBind(BindStore(pod, k), s1);
      index := index[k := updated];
      BindsAgain(s.binds, pod, PromoteIndex(node, items - {k}, k, updated), Promote(node, items - {k}));
      RecordBind(BindIndexed(pod),
                 s.(store := store, index := index, binds := s.binds[pod := Promote(node, items - {k})]));
    }

    /** Deletes one claim on another node, from the store and then from the index. */
    method DropClaim(pod: string, node: string, items: ClaimMap, k: Key)
      requires Valid() && pod in Now().binds && Now().binds[pod] == Promote(node, items) && k in items
      requires items[k].node != node
      modifies this
      ensures Valid() && old(trace) <= trace
      ensures store == old(store) - {k} && index == old(index) - {k}
      ensures Now() == old(Now()).(store := store, index := index,
                                   binds := old(Now()).binds[pod := Promote(node, items - {k})])
    {
      hide Path;
      ghost var s := Now();
      store := store - {k};
      ghost var s1 := s.(store := store, binds := s.binds[pod := DropIndex(node, items - {k}, k)]);
      RecordBind(BindStore(pod, k), s1);
      index := index - {k};
      BindsAgain(s.binds, pod, DropIndex(node, items - {k}, k), Promote(node, items - {k}));
      RecordBind(BindIndexed(pod),
                 s.(store := store, index := index, binds := s.binds[pod := Promote(node, items - {k})]));
    }

    /** PreBind's treatment of one listed claim; false when the claim has left the store. */
    method PreBindOne(pod: string, node: string, items: ClaimMap, k: Key) returns (ok: bool)
      requires Valid() && pod in Now().binds && Now().binds[pod] == Promote(node, items) && k in items
      modifies this
      ensures Valid() && old(trace) <= trace
      ensures ok <==> items[k].node != node || items[k].phase == Created || k in old(store)
      ensures ok ==> (
        && store == (if items[k].node != node then old(store) - {k}
                     else if items[k].phase == Created then old(store) else old(store)[k := Promoted(old(store)[k])])
        && index == (if items[k].node != node then old(index) - {k}
                     else if items[k].phase == Created then old(index) else old(index)[k := Promoted(old(store)[k])])
        && Now() == old(Now()).(store := store, index := index,
                                binds := old(Now()).binds[pod := Promote(node, items - {k})]))
    {
      hide Path;
      ok := true;
      if items[k].node == node {
        if items[k].phase != Created {
          if k !in store {
            RecordBind(BindStore(pod, k), Now().(binds := Now().binds - {pod}));
            return false;
          }
          PromoteClaim(pod, node, items, k);
        } else {
          RecordBind(BindStore(pod, k), Now().(binds := Now().binds[pod := Promote(node, items - {k})]));
        }
      } else {
        DropClaim(pod, node, items, k);
      }
    }

    /** The loop over the listed claims. */
    method PromoteAll(ghost s0: State, ghost w: World, pod: string, node: string, listed: ClaimMap) returns (ok: bool)
      requires Valid() && w == World(store, index) && listed == Listed(index, pod) && listed != map[]
      requires Now() == s0.(binds := s0.binds[pod := Promote(node, listed)]) && s0.store == store && s0.index == index
      modifies this
      ensures Valid() && old(trace) <= trace
      ensures ok == CanPromote(w, pod, node)
      ensures ok ==> World(store, index) == SchedulerSpec.PreBind(w, pod, node)
      ensures ok ==> Now() == s0.(store := store, index := index, binds := s0.binds[pod := Promote(node, map[])])
    {
      hide Path, Own, CanPromote, SchedulerSpec.PreBind, PreBindPart, OwnAnywhere, Listed, PartOk;
      var items := listed;
      ghost var gone: set<Key> := {};
      ListedAre(w, pod, node);
      while items != map[]
        invariant Valid() && old(trace) <= trace
        invariant items == listed - gone && gone <= listed.Keys
        invariant PartOk(w, pod, node, gone) && World(store, index) == PreBindPart(w, pod, node, gone)
        invariant Now() == s0.(store := store, index := index, binds := s0.binds[pod := Promote(node, items)])
        decreases |items|
      {
        var k :| k in items;
        PartStep(w, pod, node, gone, k);
        BindsAgain(s0.binds, pod, Promote(node, items), Promote(node, items - {k}));
        ok := PreBindOne(pod, node, items, k);
        if !ok {
          return;
        }
        items := items - {k};
        gone := gone + {k};
      }
      AllGone(w, pod, node, gone);
      ok := true;
    }

    /**
     * PreBind. It succeeds exactly when it lists a claim and no claim it must promote is missing;
     * then the store and the index are those of SchedulerSpec.PreBind and the pod is bound. It never
     * fails for a pod whose chosen Filter call holds its requests, and then conserves them.
     */
    method PreBind(pod: string, node: string) returns (v: Verdict)
      requires Valid() && pod in Now().binds && Now().binds[pod].Chosen? && Now().binds[pod].node == node
      modifies this
      ensures Valid() && old(trace) <= trace
      ensures v == (if old(CanPromote(World(store, index), pod, node)) then Success else Error)
      ensures v == Success ==> World(store, index) == old(SchedulerSpec.PreBind(World(store, index), pod, node))
      ensures v == Success ==>
        Now() == old(Now()).(store := store, index := index, binds := old(Now()).binds[pod := Bound(node)])
      ensures old(OwnAnywhere(index, pod)) == {} ==> store == old(store) && index == old(index)
      ensures v == Success <==> old(OwnAnywhere(index, pod)) != {}
      ensures v == Success ==>
        BindsAsFiltered(old(World(store, index)), World(store, index), pod, node, old(Now().binds[pod].run))
      ensures Satisfied(old(Now().binds[pod].run)) && old(Now().binds[pod].run).reqs != [] ==> v == Success
    {
      hide Path, Own, CanPromote, SchedulerSpec.PreBind, PreBindPart, OwnAnywhere, Listed, PartOk, Inv, BindsAsFiltered;
      ghost var s0, w := Now(), World(store, index);
      PathKeepsInv(cfg, trace, |trace| - 1);
      ChosenCanPromote(cfg, s0, pod);
      ChosenConserves(cfg, s0, pod);
      var items := Listed(index, pod);
      ListedAre(w, pod, node);
      StartBind(pod, node, items);
      if items == map[] {
        return Error;
      }
      var ok := PromoteAll(s0, w, pod, node, items);
      if !ok {
        return Error;
      }
      EndBind(s0, pod, node);
      v := Success;
    }

    ghost method StartBind(pod: string, node: string, items: ClaimMap)
      requires Valid() && pod in Now().binds && Now().binds[pod].Chosen? && Now().binds[pod].node == node
      requires items == Listed(index, pod)
      modifies this`trace
      ensures Valid() && old(trace) <= trace
      ensures items != map[] ==> Now() == old(Now()).(binds := old(Now()).binds[pod := Promote(node, items)])
    {
      hide Path, Listed, BindMove;
      ghost var s0 := Now();
      ListStep(s0, pod);
      RecordBind(BindList(pod), if items == map[] then s0.(binds := s0.binds - {pod})
                                else s0.(binds := s0.binds[pod := Promote(node, items)]));
    }

    ghost method EndBind(s0: State, pod: string, node: string)
      requires Valid() && Now() == s0.(store := store, index := index, binds := s0.binds[pod := Promote(node, map[])])
      modifies this`trace
      ensures Valid() && old(trace) <= trace
      ensures Now() == s0.(store := store, index := index, binds := s0.binds[pod := Bound(node)])
    {
      hide Path;
      BindsAgain(s0.binds, pod, Promote(node, map[]), Bound(node));
      RecordBind(BindEnd(pod), s0.(store := store, index := index, binds := s0.binds[pod := Bound(node)]));
    }

    // ---- a whole cycle ----

    /** The scheduling queue picks the pod. */
    ghost method StartCycle(pod: string)
      requires Valid() && Now().cycle.None? && pod !in Now().binds
      modifies this`trace
      ensures Valid() && old(trace) <= trace && Now() == old(Now()).(cycle := Some(pod), runs := map[])
    {
      hide Path;
      RecordCycle(Protocol.StartCycle(pod), Now().(cycle := Some(pod), runs := map[]));
    }

    /** The scheduler chooses a node that passed. */
    ghost method Assume(pod: string, node: string)
      requires Valid() && Now().cycle == Some(pod) && AllEnded(Now())
      requires node in Now().runs && Now().runs[node].pc == AtDone(true)
      modifies this`trace
      ensures Valid() && old(trace) <= trace
      ensures Now() == old(Now()).(cycle := None, runs := map[],
                                   binds := old(Now()).binds[pod := Chosen(node, old(Now()).runs[node])])
    {
      hide Path;
      ghost var s := Now();
      RecordCycle(Protocol.Assume(node),
                  s.(cycle := None, runs := map[], binds := s.binds[pod := Chosen(node, s.runs[node])]));
    }

    ghost method RecordCycle(a: Action, s': State)
      requires trace != [] && Path(cfg, trace) && CycleMove(Now(), a, s')
      modifies this`trace
      ensures trace == old(trace) + [s'] && Path(cfg, trace) && Now() == s'
    {
      hide Path, Step, CycleMove;
      CycleStepIs(cfg, Now(), a, s');
      Record(a, s');
    }

    /** One Filter of a cycle: other pods' claims and the other ended calls stay as they are. */
    method FilterOne(pod: string, info: NodeInfo, cs: seq<ContainerSpec>, createFaults: set<Key>,
                     statusFaults: set<Key>)
      returns (v: Verdict)
      requires Valid() && Now().cycle == Some(pod) && AllEnded(Now()) && DistinctNames(cs) && Known(cfg, info, cs)
      modifies this
      ensures Valid() && old(trace) <= trace && Now().cycle == Some(pod) && AllEnded(Now())
      ensures Now().binds == old(Now()).binds
      ensures Untouched(old(World(store, index)), World(store, index), pod)
      ensures forall n :: n in old(Now()).runs && n != info.name ==>
        n in Now().runs && Now().runs[n] == old(Now()).runs[n]
      ensures v == Success ==> Passed(Now(), info.name, cs, createFaults + statusFaults == {})
    {
      hide Path, Tally, Wants, SchedulerSpec.Filter, HidesError, Inv, Untouched;
      ghost var reqs, lists;
      ghost var s0, w := Now(), World(store, index);
      PathKeepsInv(cfg, trace, |trace| - 1);
      UntouchedSelf(w, pod);
      v, reqs, lists := Filter(pod, Some(info), cs, createFaults, statusFaults);
      if info.Usable() {
        ghost var res, faults := info.accelerator.value.resources.value, createFaults + statusFaults;
        ghost var r: Run :| Now() == With(s0, store, index, info.name, r)
                            && EndsAs(r, w, pod, info.name, res, reqs, faults, v);
        FilterUntouched(cfg, s0, pod, info.name, res, reqs, faults);
        NothingHidden(w, pod, info.name, res, reqs);
        assert Listing(cs, reqs, lists);
      }
    }

    /**
     * A whole scheduling cycle on the given nodes, ended by the choice of one of them. If the pod gets
     * bound there, it owns exactly one created claim per requested slice, all on that node, in store
     * and index, or, after a hidden error, none at all; without refused API calls it is the former.
     * No other pod's claim has changed.
     */
    method Schedule(pod: string, infos: seq<NodeInfo>, cs: seq<ContainerSpec>, pick: string,
                    createFaults: set<Key>, statusFaults: set<Key>)
      returns (passed: bool, bound: bool, ghost reqs: seq<Req>)
      requires Valid() && Now().cycle.None? && pod !in Now().binds && DistinctNames(cs)
      requires forall i :: 0 <= i < |infos| ==> Known(cfg, infos[i], cs)
      modifies this
      ensures Valid() && old(trace) <= trace
      ensures bound ==> passed && pod in Now().binds && Now().binds[pod] == Bound(pick)
      ensures passed && createFaults + statusFaults == {} && reqs != [] ==> bound
      ensures bound ==> IsListing(cs, reqs) && Untouched(old(World(store, index)), World(store, index), pod)
      ensures bound ==> (
        || Conserved(old(World(store, index)), World(store, index), pod, pick, reqs)
        || (createFaults + statusFaults != {} && OwnAnywhere(store, pod) == {} == OwnAnywhere(index, pod)))
    {
      hide Path, Untouched, Conserved, Satisfied, IsListing, Known, OwnAnywhere;
      ghost var w0 := World(store, index);
      StartCycle(pod);
      UntouchedSelf(w0, pod);
      passed, reqs := false, [];
      var i := 0;
      while i < |infos|
        invariant 0 <= i <= |infos| && Valid() && old(trace) <= trace
        invariant Now().cycle == Some(pod) && AllEnded(Now()) && Now().binds == old(Now()).binds
        invariant Untouched(w0, World(store, index), pod)
        invariant passed ==> Passed(Now(), pick, cs, createFaults + statusFaults == {})
      {
        ghost var w1 := World(store, index);
        var v := FilterOne(pod, infos[i], cs, createFaults, statusFaults);
        UntouchedTrans(w0, w1, World(store, index), pod);
        if infos[i].name == pick {
          passed := v == Success;
        }
        i := i + 1;
      }
      if !passed {
        return false, false, reqs;
      }
      ghost var run, w2 := Now().runs[pick], World(store, index);
      reqs := run.reqs;
      Assume(pod, pick);
      var v := PreBind(pod, pick);
      if v == Success {
        BoundSince(w0, w2, World(store, index), pod, pick, run);
      }
      bound := v == Success;
    }

    ghost method RecordOther(a: Action, s': State)
      requires trace != [] && Path(cfg, trace) && OtherMove(Now(), a, s')
      modifies this`trace
      ensures trace == old(trace) + [s'] && Path(cfg, trace) && Now() == s'
    {
      hide Path, Step, OtherMove;
      OtherStepIs(cfg, Now(), a, s');
      Record(a, s');
    }

    /** Deletes one listed claim of a deleted pod; the index is touched only if the store had it. */
    method CleanupOne(k: Key)
      requires Valid() && k in Now().doomed
      modifies this
      ensures Valid() && old(trace) <= trace
      ensures store == old(store) - {k} && index == (if k in old(store) then old(index) - {k} else old(index))
      ensures old(Now()).doomed - {k} <= Now().doomed
    {
      hide Path;
      ghost var s := Now();
      if k in store {
        store := store - {k};
        RecordOther(CleanupStore(k), s.(doomed := s.doomed - {k}, store := store, swept := s.swept + {k}));
        ghost var s1 := Now();
        index := index - {k};
        RecordOther(CleanupIndexed(k), s1.(swept := s1.swept - {k}, index := index));
      } else {
        assert store - {k} == store;
        RecordOther(CleanupStore(k), s.(doomed := s.doomed - {k}));
      }
    }

    /** cleanupAllocationClaims: a deleted pod's claims that are indexed as created leave the store and the index. */
    method CleanupAllocationClaims(pod: string)
      requires Valid()
      modifies this
      ensures Valid() && old(trace) <= trace
      ensures var created := set k | k in old(index) && old(index)[k].pod == pod && old(index)[k].phase == Created;
        store == old(store) - created && index == old(index) - set k | k in created && k in old(store)
    {
      hide Path;
      ghost var s0 := Now();
      var todo := CreatedOf(index, pod);
      RecordOther(CleanupList(pod), s0.(doomed := s0.doomed + CreatedOf(index, pod)));
      ghost var gone: set<Key> := {};
      while todo != {}
        invariant Valid() && old(trace) <= trace
        invariant gone !! todo && gone + todo == CreatedOf(s0.index, pod) && todo <= Now().doomed
        invariant store == s0.store - gone && index == s0.index - (gone * s0.store.Keys)
        decreases |todo|
      {
        hide CreatedOf, OtherMove;
        var k :| k in todo;
        DropMore(s0.store, gone, k);
        DropSome(s0.index, gone, s0.store.Keys, k);
        CleanupOne(k);
        todo := todo - {k};
        gone := gone + {k};
      }
      assert gone == CreatedOf(s0.index, pod);
      assert gone == set k | k in s0.index && s0.index[k].pod == pod && s0.index[k].phase == Created;
      assert gone * s0.store.Keys == set k | k in gone && k in s0.store;
    }

    /** gpuAllocatedSlices: the slot table of one GPU, nobody's claims left out. */
    method GpuAllocatedSlices(node: string, gpu: string) returns (slots: Slots)
      requires forall k :: k in index ==> InRange(index[k])
      ensures slots == Occupied(index, node, gpu, "")
    {
      var allocs := ListGPUAllocations(node, gpu);
      slots := BuildAllocatedIndex(allocs, "");
      SlotsAreOccupied(index, node, gpu, "", allocs, slots);
    }

    /** Score: counts the free slots of every GPU of the node; None is an error. */
    method Score(node: string, accelerator: Option<Accelerator>) returns (score: Option<int>)
      requires forall k :: k in index ==> InRange(index[k])
      ensures score.Some? <==> accelerator.Some? && accelerator.value.resources.Some?
      ensures score.Some? ==> score.value == NodeScore(index, accelerator.value.resources.value, node)
    {
      hide Occupied;
      if accelerator.None? || accelerator.value.resources.None? {
        return None;
      }
      var res := accelerator.value.resources.value;
      var freeSlots, totalSlots := 0, 0;
      var i := 0;
      while i < |res.gpus|
        invariant 0 <= i <= |res.gpus|
        invariant freeSlots == FreeSlots(index, res, node, i) && totalSlots == SLOTS * i
      {
        var slots := GpuAllocatedSlices(node, res.gpus[i]);
        totalSlots := totalSlots + |slots|;
        var j := 0;
        while j < |slots|
          invariant 0 <= j <= |slots|
          invariant freeSlots == FreeSlots(index, res, node, i) + ZeroSlots(slots[..j])
        {
          assert slots[..j + 1][..j] == slots[..j];
          if slots[j] == 0 {
            freeSlots := freeSlots + 1;
          }
          j := j + 1;
        }
        assert slots[..j] == slots;
        i := i + 1;
      }
      if totalSlots == 0 {
        return Some(0);
      }
      score := Some(freeSlots * MAX_SCORE / totalSlots);
    }
  }

  lemma OtherStepIs(cfg: Config, s: State, a: Action, s': State)
    requires OtherMove(s, a, s')
    ensures Step(cfg, s, a, s')
  {
  }

  function CreatedOf(index: ClaimMap, pod: string): set<Key> {
    set k | k in index && index[k].pod == pod && index[k].phase == Created
  }

  lemma DropSome(m: ClaimMap, gone: set<Key>, live: set<Key>, k: Key)
    requires k !in gone
    ensures (if k in live then m - (gone * live) - {k} else m - (gone * live)) == m - ((gone + {k}) * live)
  {
  }

  lemma CycleStepIs(cfg: Config, s: State, a: Action, s': State)
    requires CycleMove(s, a, s')
    ensures Step(cfg, s, a, s')
  {
    hide CycleMove;
  }

  ghost predicate AllEnded(s: State) {
    forall n :: n in s.runs ==> s.runs[n].pc.AtDone?
  }

  /** The node's resources are those of the configuration, and the search can handle what the pod asks for. */
  ghost predicate Known(cfg: Config, info: NodeInfo, cs: seq<ContainerSpec>) {
    info.Usable() ==> (
      && info.name in cfg && cfg[info.name] == info.accelerator.value.resources.value
      && forall p :: Wants(cs, p) ==> cfg[info.name].Searchable(p))
  }

  ghost predicate Listing(cs: seq<ContainerSpec>, reqs: seq<Req>, lists: seq<seq<string>>) {
    && |lists| == |cs| && reqs == Flatten(cs, lists, |cs|)
    && forall i :: 0 <= i < |cs| ==> Tally(lists[i], cs[i].limits, cs[i].limits.Keys)
  }

  /** One request per profile instance the containers ask for, in some order of their limits. */
  ghost predicate IsListing(cs: seq<ContainerSpec>, reqs: seq<Req>) {
    exists lists :: Listing(cs, reqs, lists)
  }

  /** The Filter call on the node has passed with a listing of the pod's requests, and holds them if it must. */
  ghost predicate Passed(s: State, node: string, cs: seq<ContainerSpec>, holds: bool) {
    && node in s.runs && s.runs[node].pc == AtDone(true) && IsListing(cs, s.runs[node].reqs)
    && (holds ==> Satisfied(s.runs[node]))
  }

  /** No claim of another pod differs. */
  ghost predicate Untouched(a: World, b: World, pod: string) {
    SameForOthers(a.store, b.store, pod) && SameForOthers(a.index, b.index, pod)
  }

  lemma UntouchedSelf(w: World, pod: string)
    ensures Untouched(w, w, pod)
  {
  }

  lemma UntouchedTrans(a: World, b: World, c: World, pod: string)
    requires Untouched(a, b, pod) && Untouched(b, c, pod)
    ensures Untouched(a, c, pod)
  {
  }

  lemma FilterUntouched(cfg: Config, s: State, pod: string, node: string, res: Resources, reqs: seq<Req>,
                        faults: set<Key>)
    requires Inv(cfg, s) && DistinctReqs(reqs)
    ensures var w := World(s.store, s.index);
      Untouched(w, SchedulerSpec.Filter(w, res, pod, node, reqs, faults).world, pod)
  {
    hide SchedulerSpec.Filter, NoOverlap, StagedExclusive, WellPlaced, IndexCovers, Unpromoted, RunsInv, BindsInv,
         SweepInv,
         UnsetPending;
    FilterStaysOnNode(World(s.store, s.index), res, pod, node, reqs, faults);
  }

  lemma NothingHidden(w: World, pod: string, node: string, res: Resources, reqs: seq<Req>)
    ensures !HidesError(w, pod, Visit(node, res, reqs, {}))
  {
    hide PlanOn;
    NoFaults(pod, node, reqs, |PlanOn(w, res, pod, node, reqs)|, 0);
  }

  lemma BindStepIs(cfg: Config, s: State, a: Action, s': State)
    requires BindMove(s, a, s')
    ensures Step(cfg, s, a, s')
  {
  }

  lemma BindsAgain(m: map<string, Bind>, pod: string, a: Bind, b: Bind)
    ensures m[pod := a][pod := b] == m[pod := b]
  {
  }

  /** In a reachable state PreBind fails only for want of any claim: what it must promote is there. */
  lemma ChosenCanPromote(cfg: Config, s: State, pod: string)
    requires Inv(cfg, s) && pod in s.binds && s.binds[pod].Chosen?
    ensures CanPromote(World(s.store, s.index), pod, s.binds[pod].node) <==> OwnAnywhere(s.index, pod) != {}
  {
    hide SafeStore, WellPlaced, IndexCovers, Unpromoted, RunsInv, SweepInv, UnsetPending;
    assert BindInv(cfg, s, pod);
  }

  /**
   * What PreBind makes of the Filter call that passed on the chosen node, in every reachable state:
   * exactly its requests if it holds them, nothing at all otherwise.
   */
  lemma ChosenConserves(cfg: Config, s: State, pod: string)
    requires Inv(cfg, s) && pod in s.binds && s.binds[pod].Chosen?
    ensures var w, node, r := World(s.store, s.index), s.binds[pod].node, s.binds[pod].run;
      && (Satisfied(r) && r.reqs != [] ==> CanPromote(w, pod, node))
      && (CanPromote(w, pod, node) ==> BindsAsFiltered(w, SchedulerSpec.PreBind(w, pod, node), pod, node, r))
  {
    hide Inv, CanPromote, SchedulerSpec.PreBind, OwnsExactly, OwnAnywhere, Requested, CoveredEverywhere, SameForOthers,
         Own;
    var w, node, r := World(s.store, s.index), s.binds[pod].node, s.binds[pod].run;
    ChosenIsCovered(cfg, s, pod);
    if Satisfied(r) {
      Runs.HeldIsExact(cfg, s, pod);
      PreBindEffect(w, pod, node, r.reqs);
      RequestedSize(pod, node, r.reqs, |r.reqs|);
    } else {
      Runs.UnsatisfiedHoldsNothing(cfg, s, pod);
      if CanPromote(w, pod, node) {
        PreBindLeavesNone(w, pod, node);
      }
    }
  }

  /** PreBind leaves the pod the requests of a satisfied Filter call, and nothing for any other. */
  ghost predicate BindsAsFiltered(w: World, w2: World, pod: string, node: string, r: Run) {
    if Satisfied(r) then Conserved(w, w2, pod, node, r.reqs)
    else
      && OwnAnywhere(w2.store, pod) == {} == OwnAnywhere(w2.index, pod)
      && SameForOthers(w.store, w2.store, pod) && SameForOthers(w.index, w2.index, pod)
  }

  lemma BoundSince(w0: World, w1: World, w2: World, pod: string, node: string, r: Run)
    requires Untouched(w0, w1, pod) && BindsAsFiltered(w1, w2, pod, node, r)
    ensures Untouched(w0, w2, pod)
    ensures if Satisfied(r) then Conserved(w0, w2, pod, node, r.reqs)
            else OwnAnywhere(w2.store, pod) == {} == OwnAnywhere(w2.index, pod)
  {
  }

  lemma ChosenIsCovered(cfg: Config, s: State, pod: string)
    requires Inv(cfg, s) && pod in s.binds && s.binds[pod].Chosen?
    ensures CoveredEverywhere(World(s.store, s.index), pod) && DistinctReqs(s.binds[pod].run.reqs)
  {
    hide NoOverlap, StagedExclusive, WellPlaced, Unpromoted, RunInv, SweepInv, UnsetPending, Held, HoldsNothing;
    assert BindInv(cfg, s, pod);
  }

  lemma PreBindLeavesNone(w: World, pod: string, node: string)
    requires CoveredEverywhere(w, pod) && CanPromote(w, pod, node) && Own(w.index, pod, node) == {}
    ensures var w2 := SchedulerSpec.PreBind(w, pod, node);
      && OwnAnywhere(w2.store, pod) == {} == OwnAnywhere(w2.index, pod)
      && SameForOthers(w.store, w2.store, pod) && SameForOthers(w.index, w2.index, pod)
  {
  }

  /** What PreBind lists: the pod's index entries. */
  function Listed(index: ClaimMap, pod: string): ClaimMap {
    map k | k in index && index[k].pod == pod :: index[k]
  }

  lemma ListStep(s: State, pod: string)
    requires pod in s.binds && s.binds[pod].Chosen?
    ensures Listed(s.index, pod) == map[] ==> BindMove(s, BindList(pod), s.(binds := s.binds - {pod}))
    ensures Listed(s.index, pod) != map[] ==>
      BindMove(s, BindList(pod), s.(binds := s.binds[pod := Promote(s.binds[pod].node, Listed(s.index, pod))]))
  {
  }

  function Ups(w: World, pod: string, node: string, ks: set<Key>): set<Key> {
    set k | k in ks && k in Own(w.index, pod, node) && w.index[k].phase != Created
  }

  predicate PartOk(w: World, pod: string, node: string, ks: set<Key>) {
    forall k :: k in Ups(w, pod, node, ks) ==> k in w.store
  }

  /** PreBind after the listed claims ks. */
  function PreBindPart(w: World, pod: string, node: string, ks: set<Key>): World
    requires PartOk(w, pod, node, ks)
  {
    var up, down := Ups(w, pod, node, ks), ks - Own(w.index, pod, node);
    World(map k | k in w.store.Keys - down :: if k in up then Promoted(w.store[k]) else w.store[k],
          map k | k in w.index.Keys - down :: if k in up then Promoted(w.store[k]) else w.index[k])
  }

  lemma ListedAre(w: World, pod: string, node: string)
    ensures Listed(w.index, pod).Keys == OwnAnywhere(w.index, pod)
    ensures PartOk(w, pod, node, {}) && PreBindPart(w, pod, node, {}) == w
    ensures Listed(w.index, pod) == map[] ==> !CanPromote(w, pod, node)
    ensures Listed(w.index, pod) == map[] <==> OwnAnywhere(w.index, pod) == {}
    ensures Listed(w.index, pod) - {} == Listed(w.index, pod)
  {
  }

  /** The effect of one listed claim on a partial PreBind. */
  lemma PartStep(w: World, pod: string, node: string, ks: set<Key>, k: Key)
    requires PartOk(w, pod, node, ks) && k in Listed(w.index, pod) && k !in ks
    ensures Listed(w.index, pod) - ks - {k} == Listed(w.index, pod) - (ks + {k})
    ensures (Listed(w.index, pod) - ks)[k] == w.index[k]
    ensures var c, part := w.index[k], PreBindPart(w, pod, node, ks);
      && (k in part.store <==> k in w.store) && (k in w.store ==> part.store[k] == w.store[k])
      && (c.node == node && c.phase != Created && k !in w.store ==> !CanPromote(w, pod, node))
      && (c.node != node || c.phase == Created || k in w.store ==> (
            && PartOk(w, pod, node, ks + {k})
            && var next := PreBindPart(w, pod, node, ks + {k});
            && next.store == (if c.node != node then part.store - {k}
                              else if c.phase == Created then part.store else part.store[k := Promoted(w.store[k])])
            && next.index == (if c.node != node then part.index - {k}
                              else if c.phase == Created then part.index else part.index[k := Promoted(w.store[k])])))
  {
    var c, part := w.index[k], PreBindPart(w, pod, node, ks);
    assert k in Own(w.index, pod, node) <==> c.node == node;
    if c.node == node && c.phase != Created {
      assert Ups(w, pod, node, ks + {k}) == Ups(w, pod, node, ks) + {k};
    } else {
      assert Ups(w, pod, node, ks + {k}) == Ups(w, pod, node, ks);
    }
    if c.node == node {
      assert (ks + {k}) - Own(w.index, pod, node) == ks - Own(w.index, pod, node);
    } else {
      assert (ks + {k}) - Own(w.index, pod, node) == (ks - Own(w.index, pod, node)) + {k};
    }
  }

  lemma AllGone(w: World, pod: string, node: string, ks: set<Key>)
    requires Listed(w.index, pod) - ks == map[] && ks <= Listed(w.index, pod).Keys && Listed(w.index, pod) != map[]
    requires PartOk(w, pod, node, ks)
    ensures CanPromote(w, pod, node) && PreBindPart(w, pod, node, ks) == SchedulerSpec.PreBind(w, pod, node)
  {
    assert ks == OwnAnywhere(w.index, pod) by {
      forall k | k in OwnAnywhere(w.index, pod)
        ensures k in ks
      {
        assert k in Listed(w.index, pod);
        assert k !in ks ==> k in Listed(w.index, pod) - ks;
      }
    }
    assert Own(w.index, pod, node) <= ks;
    assert Ups(w, pod, node, ks) == set k | k in Own(w.index, pod, node) && w.index[k].phase != Created;
    var a, b := PreBindPart(w, pod, node, ks), SchedulerSpec.PreBind(w, pod, node);
    assert a.store == b.store && a.index == b.index;
  }

  /** The purge leaves the pod nothing on the node, because the index lists all its stored claims. */
  lemma PurgedIsUnowned(cfg: Config, s: State, pod: string, node: string)
    requires Inv(cfg, s) && Free(s, node)
    ensures Unowned(Purged(World(s.store, s.index), pod, node), pod, node)
    ensures forall k :: k in Purged(World(s.store, s.index), pod, node).index ==> InRange(s.index[k])
    ensures forall k :: k in Purged(World(s.store, s.index), pod, node).index ==>
      Purged(World(s.store, s.index), pod, node).index[k] == s.index[k]
  {
  }

  lemma NothingAsked(w: World, res: Resources, pod: string, node: string, faults: set<Key>)
    ensures SchedulerSpec.Filter(w, res, pod, node, [], faults) == Outcome(Purged(w, pod, node), Success)
    ensures !HidesError(w, pod, Visit(node, res, [], faults))
  {
  }

  lemma PlannedEnd(res: Resources, occ0: Tables, reqs: seq<Req>, spots: seq<Spot>, occ: Tables)
    requires Planned(res, occ0, reqs, spots, occ) && |spots| == |reqs|
    ensures Plan(res, occ0, Profiles(reqs)) == spots
  {
  }

  lemma PlusNothing(w: World, res: Resources, pod: string, node: string, reqs: seq<Req>)
    ensures w == Plus(w, StagedClaims(res, pod, node, reqs, [], 0))
  {
  }

  lemma StagedGrows(w: World, res: Resources, pod: string, node: string, reqs: seq<Req>, spots: seq<Spot>, spot: Spot)
    requires |spots| < |reqs|
    ensures var k, c := KeyOf(pod, node, reqs[|spots|]), ClaimOf(res, pod, node, reqs[|spots|], spot);
      var m := StagedClaims(res, pod, node, reqs, spots, |spots|);
      && StagedClaims(res, pod, node, reqs, spots + [spot], |spots| + 1) == m[k := c]
      && (w.store + m)[k := c] == w.store + m[k := c] && (w.index + m)[k := c] == w.index + m[k := c]
  {
    StagedPrefix(res, pod, node, reqs, spots, spots + [spot], |spots|);
  }

  function Plus(w: World, m: ClaimMap): World {
    World(w.store + m, w.index + m)
  }

  /** Neither map holds a claim of the pod on the node. */
  ghost predicate Unowned(w: World, pod: string, node: string) {
    forall k :: k in w.store || k in w.index ==> k.pod != pod || k.node != node
  }

  /** The claims placed so far are exactly the additions, and removing them undoes the additions. */
  lemma ClaimsAreStaged(w: World, res: Resources, pod: string, node: string, reqs: seq<Req>, spots: seq<Spot>,
                        claims: seq<Key>)
    requires Unowned(w, pod, node) && DistinctReqs(reqs) && |spots| == |claims| <= |reqs|
    requires forall j :: 0 <= j < |claims| ==> claims[j] == KeyOf(pod, node, reqs[j])
    ensures var m := StagedClaims(res, pod, node, reqs, spots, |spots|);
      && (w.store + m) - Keys(claims) == w.store && (w.index + m) - Keys(claims) == w.index
      && (|claims| < |reqs| ==> KeyOf(pod, node, reqs[|claims|]) !in w.store + m)
  {
    hide StagedClaims;
    var m := StagedClaims(res, pod, node, reqs, spots, |spots|);
    StagedClaimsAre(res, pod, node, reqs, spots, |spots|);
    RequestedAre(pod, node, reqs, |spots|);
    assert m.Keys == Keys(claims);
    AddAndRemove(w.store, m, Keys(claims), pod, node);
    AddAndRemove(w.index, m, Keys(claims), pod, node);
  }

  lemma AddAndRemove(m: ClaimMap, add: ClaimMap, ks: set<Key>, pod: string, node: string)
    requires add.Keys == ks && OnlyFor(add, pod, node) && forall k :: k in m ==> k.pod != pod || k.node != node
    ensures (m + add) - ks == m
  {
  }

  lemma OneMore(w: World, claims: seq<Key>, k: Key, before: ClaimMap, after: ClaimMap, index: ClaimMap)
    requires before - Keys(claims) == w.store && index - Keys(claims) == w.index && k !in w.store && k !in w.index
    requires after.Keys == before.Keys + {k} && forall q :: q in before && q != k ==> after[q] == before[q]
    ensures after - Keys(claims + [k]) == w.store && index - Keys(claims + [k]) == w.index
  {
  }

  lemma TakeOne(ks: seq<Key>, i: nat)
    requires i < |ks|
    ensures Keys(ks[..i + 1]) == Keys(ks[..i]) + {ks[i]} && ks[i..][0] == ks[i] && ks[i..][1..] == ks[i + 1..]
  {
  }

  lemma SlotsAreOccupied(m: ClaimMap, node: string, gpu: string, pod: string, allocs: seq<Claim>, slots: Slots)
    requires forall c :: c in allocs <==> exists k :: k in m && m[k] == c && c.node == node && c.gpu == gpu
    requires forall i :: 0 <= i < SLOTS ==>
      slots[i] == if exists a :: a in allocs && (pod == "" || a.pod != pod) && Covers(a, i) then 1 else 0
    ensures slots == Occupied(m, node, gpu, pod)
  {
  }

  lemma FilterStepIs(cfg: Config, s: State, a: Action, s': State)
    requires FilterMove(cfg, s, a, s')
    ensures Step(cfg, s, a, s')
  {
  }

  lemma SameWith(s: State, node: string)
    requires node in s.runs
    ensures s == With(s, s.store, s.index, node, s.runs[node])
  {
  }
}
