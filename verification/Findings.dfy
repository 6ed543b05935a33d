/** Concrete inputs on which the code does less than one would expect of it. */
module Findings {
  import opened Claims
  import opened SlotSearch
  import opened Greedy
  import opened SchedulerSpec
  import opened Naming
  import opened Webhook
  import opened NodeAgent

  const PAIR := Resources(["gpu"], map["1g.5gb" := [Placement(1, 0), Placement(1, 1)]])

  lemma EmptyGpu(node: string)
    ensures Snapshot(map[], PAIR, "pod", node) == map["gpu" := [0, 0, 0, 0, 0, 0, 0, 0]]
  {
    var slots := Occupied(map[], node, "gpu", "pod");
    assert slots == [0, 0, 0, 0, 0, 0, 0, 0];
    assert !HeldByOther(map[], node, "gpu", "pod");
  }

  lemma TwoFit(node: string, reqs: seq<Req>)
    requires |reqs| == 2 && reqs[0].profile == reqs[1].profile == "1g.5gb"
    ensures |PlanOn(World(map[], map[]), PAIR, "pod", node, reqs)| == 2
  {
    var w := World(map[], map[]);
    assert Purged(w, "pod", node) == w;
    EmptyGpu(node);
    hide Occupied, HeldByOther;
    var slots: Slots := [0, 0, 0, 0, 0, 0, 0, 0];
    var occ: Tables := map["gpu" := slots];
    var ps := PAIR.table["1g.5gb"];
    assert ps[1..] == [Placement(1, 1)] && ps[1..][1..] == [];
    assert FreeCount(ps, 1, slots) == 2;
    assert TotalFree(PAIR, occ, "1g.5gb") == 2 by {
      assert TotalFree(PAIR, occ, "1g.5gb", 1) == 0;
    }
    GreedyIsOptimal(PAIR, occ, "1g.5gb", Profiles(reqs));
  }

  /** Two slices fit; the API server refuses the second claim; Filter reports success and holds nothing. */
  lemma SuccessWithoutClaims()
    ensures var reqs := [Req("main", 0, "1g.5gb"), Req("main", 1, "1g.5gb")];
      var o := Filter(World(map[], map[]), PAIR, "pod", "node", reqs, {KeyOf("pod", "node", reqs[1])});
      o.verdict == Success && Own(o.world.store, "pod", "node") == {}
  {
    var w := World(map[], map[]);
    var reqs := [Req("main", 0, "1g.5gb"), Req("main", 1, "1g.5gb")];
    var faults := {KeyOf("pod", "node", reqs[1])};
    hide Filter, PlanOn, OwnsExactly;
    TwoFit("node", reqs);
    assert KeyOf("pod", "node", reqs[0]) !in faults;
    assert FirstFault("pod", "node", reqs, faults, 2) == 1;
    SuccessIsBacked(w, PAIR, "pod", "node", reqs, faults);
  }

  /**
   * The same on node "a" while node "b" takes both slices: PreBind on "a" succeeds, drops the claims on
   * "b", and the pod is bound without a claim.
   */
  lemma BoundWithoutClaims(visits: seq<Visit>, reqs: seq<Req>)
    requires reqs == [Req("main", 0, "1g.5gb"), Req("main", 1, "1g.5gb")]
    requires visits == [Visit("a", PAIR, reqs, {KeyOf("pod", "a", reqs[1])}), Visit("b", PAIR, reqs, {})]
    ensures ValidVisits(visits) && Passes(World(map[], map[]), "pod", visits, 0)
    ensures var w1 := FilterAll(World(map[], map[]), "pod", visits, 2);
      CanPromote(w1, "pod", "a") && OwnAnywhere(PreBind(w1, "pod", "a").store, "pod") == {}
  {
    var w := World(map[], map[]);
    hide Filter, PlanOn, OwnsExactly, PreBind, CanPromote, OwnAnywhere, FilterStep;
    TwoFit("a", reqs);
    SecondFaultHides(w, visits[0]);
    BoundWithNothing(w, "pod", visits, 0);
    TakesBoth(w, visits, reqs);
  }

  lemma TakesBoth(w: World, visits: seq<Visit>, reqs: seq<Req>)
    requires reqs == [Req("main", 0, "1g.5gb"), Req("main", 1, "1g.5gb")] && w == World(map[], map[])
    requires |visits| == 2 && ValidVisits(visits) && visits[1] == Visit("b", PAIR, reqs, {})
    ensures OwnAnywhere(FilterAll(w, "pod", visits, 2).index, "pod") != {}
  {
    hide Filter, PlanOn, OwnsExactly, OwnAnywhere;
    TwoFit("b", reqs);
    PlanNeverChanges(w, "pod", visits, 1, visits[1]);
    FilterAllCovers(w, "pod", visits, 1);
    FilterEffect(FilterAll(w, "pod", visits, 1), PAIR, "pod", "b", reqs);
    ExactlyOwnsSome(FilterAll(w, "pod", visits, 2).index, "b", reqs);
  }

  lemma SecondFaultHides(w: World, v: Visit)
    requires |v.reqs| == 2 && DistinctReqs(v.reqs)
    requires v.faults == {KeyOf("pod", v.node, v.reqs[1])}
    requires |PlanOn(w, v.res, "pod", v.node, v.reqs)| == 2 && Covered(w, "pod", v.node)
    ensures HidesError(w, "pod", v) && FilterStep(w, "pod", v).verdict == Success
  {
    hide Filter, PlanOn, OwnsExactly;
    assert KeyOf("pod", v.node, v.reqs[0]) !in v.faults;
    assert FirstFault("pod", v.node, v.reqs, v.faults, 2) == 1;
    SuccessIsBacked(w, v.res, "pod", v.node, v.reqs, v.faults);
  }

  lemma ExactlyOwnsSome(m: ClaimMap, node: string, reqs: seq<Req>)
    requires OwnsExactly(m, "pod", node, reqs, Staged) && reqs != []
    ensures OwnAnywhere(m, "pod") != {}
  {
    RequestedHas("pod", node, reqs, |reqs|, 0);
    var k := KeyOf("pod", node, reqs[0]);
    assert k in Own(m, "pod", node);
    assert k in OwnAnywhere(m, "pod");
  }

  /** The webhook makes a slice out of a plain nvidia.com resource that merely looks like a profile. */
  lemma RenamingAddsDemand(c: Container, c': Container)
    requires c == Container("main", Some(map["nvidia.com/1g.5gb" := 1]), map[]) && Mutated(c, c')
    ensures exists p :: Demand(c'.limits.value, p) != Demand(c.limits.value, p)
  {
    hide Mutated, Demand, HidesProfile, RenamesApart;
    var key := "nvidia.com/1g.5gb";
    LooksLikeSlice(key);
    assert key in c.limits.value;
    OneKeyIsApart(c.limits.value, key);
    DemandSurvives(c, c');
  }

  lemma OneKeyIsApart(limits: Quantities, key: string)
    requires limits.Keys == {key}
    ensures RenamesApart(limits)
  {
    hide Rename;
  }

  lemma LooksLikeSlice(key: string)
    requires key == "nvidia.com/1g.5gb"
    ensures HidesProfile(key)
  {
    hide Contains;
    NamesNoSlice(key);
    assert key == "nvidia.com/" + "1g.5gb";
    FirstMatchSkips("nvidia.com/", "1g.5gb", 0);
    OneSlice("1g.5gb");
  }

  lemma NamesNoSlice(key: string)
    requires key == "nvidia.com/1g.5gb"
    ensures !Contains(key, "nvidia.com/mig-") && !Contains(key, "mig.das.com/")
  {
    assert key[11] == '1' && "nvidia.com/mig-"[11] == 'm';
    NotContained(key[1..], "nvidia.com/mig-");
    NotContained(key, "mig.das.com/");
  }

  lemma OneSlice(p: string)
    requires p == "1g.5gb"
    ensures FirstMatch(p).Some?
  {
    assert DigitRun(p, 1) == 0 && DigitRun(p, 0) == 1;
    assert DigitRun(p, 4) == 0 && DigitRun(p, 3) == 1;
    assert MatchLen(p, 0) == 6;
  }

  /**
   * One container served on a node without containers of the profile, the informer caught up, the
   * device plugin restarted: the reboot test fires exactly when the container got more than one slice.
   * The claims are then deleted under the running container.
   */
  method TestAfterAllocate(a: Agent, profile: string, ids: seq<string>, supply: seq<Option<string>>, path: string)
    returns (reboot: bool)
    requires a.Valid() && a.AllRecorded() && a.Tracked() && a.events == [] && SpecsOf(a.disk, profile) == {}
    requires Available(a.index, a.node, profile) <= a.store.Keys && Asked(ids) <= |Available(a.index, a.node, profile)|
    requires |supply| == Asked(ids) && GoodSupply(supply, a.slices) && None !in supply
    requires path !in a.ledger
    modifies a
    ensures reboot <==> Asked(ids) != 1
    ensures path in a.disk && (reboot ==> forall k :: k in RecordedKeys(a.disk[path]) ==> k !in a.store)
  {
    hide RecordedKeys, RecordedUuids, Balanced, Complete, GoodSupply, Available;
    ServeOne(a, profile, ids, supply, path);
    assert ClaimBacked(a.disk, profile);
    NoEventsAllOnDisk(a.disk, a.cache, a.ledger);
    RecordedIsInUse(a.ledger, a.store, a.slices, a.node, a.hardware, path);
    reboot := a.DetectReboot(profile);
  }

  /** The claim-backed Allocate leads to a quiescent node whose one container holds what it asked for. */
  method ServeOne(a: Agent, profile: string, ids: seq<string>, supply: seq<Option<string>>, path: string)
    requires a.Valid() && a.AllRecorded() && a.Tracked() && a.events == [] && SpecsOf(a.disk, profile) == {}
    requires Available(a.index, a.node, profile) <= a.store.Keys && Asked(ids) <= |Available(a.index, a.node, profile)|
    requires |supply| == Asked(ids) && GoodSupply(supply, a.slices) && None !in supply
    requires path !in a.ledger
    modifies a
    ensures a.Quiescent(profile) && a.index == a.store && SpecsOf(a.disk, profile) == {path}
    ensures |RecordedKeys(a.disk[path])| == Asked(ids) && RecordedKeys(a.disk[path]) != {}
  {
    hide RecordedKeys, RecordedUuids, Balanced, Complete, Share, Made, GoodSupply, Available, FilesInOrder, TrackedIn,
         InSync, PastCreated, Fetchable, Keys, NamesMatch, Onward, SetPhases, Keyed;
    var requests, paths := [ids], [path];
    OneRequest(requests);
    AvailableIs(a.index, a.node, profile);
    var ok;
    ghost var claims;
    ok, claims := a.Allocate(profile, requests, supply, paths);
    StoreNamesMatch(a.store, a.index, a.ledger);
    assert a.Served(profile, requests, claims, supply, paths, 0);
    WholeShare(requests, claims);
    assert SpecsOf(a.disk, profile) == {path};
    a.Refresh(a.store);
  }

  lemma RecordedIsInUse(ledger: Specs, store: ClaimMap, slices: set<string>, node: string, hardware: bool, path: string)
    requires Balanced(ledger, store, slices, node, hardware) && path in ledger
    ensures RecordedKeys(ledger[path]) <= InUseOf(store, node, ledger[path].kind)
  {
  }

  lemma StoreNamesMatch(store: ClaimMap, index: ClaimMap, ledger: Specs)
    requires NamesMatch(store, index, ledger)
    ensures Keyed(store)
  {
  }

  lemma OneRequest(requests: seq<seq<string>>)
    requires |requests| == 1
    ensures Total(requests, 1) == Asked(requests[0])
  {
    assert Total(requests, 0) == 0;
  }

  lemma WholeShare(requests: seq<seq<string>>, claims: seq<Key>)
    requires |requests| == 1 && claims != [] && |claims| == Total(requests, 1) && NoDuplicates(claims)
    ensures Share(requests, claims, 0) == Keys(claims) && |Share(requests, claims, 0)| == |claims|
  {
    assert claims[0..|claims|] == claims;
    KeysSize(claims);
  }

  /** A container served without claims makes a running node look rebooted, too: its spec counts, and no claim does. */
  method UnclaimedLooksRebooted() returns (reboot: bool)
    ensures reboot
  {
    hide RecordedKeys, RecordedUuids, Balanced, Complete, Share, Made;
    var a := new Agent("node", true, map[]);
    var requests: seq<seq<string>> := [["x"]];
    OneRequest(requests);
    var ok;
    ghost var claims;
    ok, claims := a.Allocate("1g.5gb", requests, [None], ["spec"]);
    assert a.Served("1g.5gb", requests, claims, [None], ["spec"], 0);
    assert "spec" in SpecsOf(a.disk, "1g.5gb") && InUseOf(a.index, "node", "1g.5gb") == {};
    reboot := a.DetectReboot("1g.5gb");
  }

  /** Two slices in one container make a running node look rebooted. */
  method TwoSlicesLookRebooted() returns (reboot: bool)
    ensures reboot
  {
    var k0, k1 := Key("pod", "node", "main", 0), Key("pod", "node", "main", 1);
    var c0 := Claim("1g.5gb", "pod", "node", "gpu", 0, 1, Created);
    var c1 := Claim("1g.5gb", "pod", "node", "gpu", 1, 1, Created);
    var a := new Agent("node", true, map[k0 := c0, k1 := c1]);
    assert Available(a.index, "node", "1g.5gb") == {k0, k1};
    reboot := TestAfterAllocate(a, "1g.5gb", ["x", "y"], [Some("u0"), Some("u1")], "spec");
  }

  /** Excluding names that contain "-plus-" is not enough: "-plus+" does not survive either. */
  lemma PlusSuffixIsLost()
    ensures !Contains("-plus+", "-plus-") && Unsanitize(Sanitize("-plus+")) != "-plus+"
  {
    var p := "-plus+";
    ProfileRoundTrip(p);
    assert HasPrefix(p, "-plus+");
    NotPlus(p);
  }

  lemma NotPlus(p: string)
    requires p == "-plus+"
    ensures !Contains(p, "-plus-")
  {
    assert p[..6][5] == '+' && "-plus-"[5] == '-';
    NotContained(p[1..], "-plus-");
  }

  /** The media-extension profile is advertised but its claims are staged under the plain profile. */
  lemma MediaProfileIsNotFound()
    ensures ProfileOf(ResourceName("1g.5gb+me")) != Some(LookupProfile(ResourceName("1g.5gb+me")))
  {
    var p := "1g.5gb+me";
    ClaimsAreFound(p);
    assert p[6] == '+';
    if PlainProfile(p) {
      PlainHasNoPlus(p);
    }
  }

  /** Admitting a pod twice drops the GPU request the first pass added next to a CPU request. */
  lemma SecondAdmissionDropsRequest(c1: Container, c2: Container)
    requires var c := Container("main", Some(map["nvidia.com/mig-1g.5gb" := 1]), map["cpu" := 1]);
             Mutated(c, c1) && Mutated(c1, c2)
    ensures c2.requests != c1.requests
  {
    var c := Container("main", Some(map["nvidia.com/mig-1g.5gb" := 1]), map["cpu" := 1]);
    hide Mutated;
    RequestsIdempotent(c, c1, c2);
    var gpu, cpu := "nvidia.com/mig-1g.5gb", "cpu";
    assert gpu[..11] == "nvidia.com/";
    assert gpu in NvidiaKeys(c.limits.value);
    assert cpu in PlainKeys(c.requests);
  }
}
