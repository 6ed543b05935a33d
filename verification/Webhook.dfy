/** The admission webhook's resource renaming, and what it keeps of the pod's demand. */
module Webhook {
  import opened Claims
  import opened Sums
  import opened Naming

  type Quantities = map<string, int>

  datatype Container = Container(name: string, limits: Option<Quantities>, requests: Quantities)

  /** `scheduler` and `runtimeClass` are the two pod fields the webhook may override. */
  datatype Pod = Pod(containers: seq<Container>, scheduler: string, runtimeClass: string)

  predicate IsNvidia(key: string) {
    HasPrefix(key, "nvidia.com/")
  }

  predicate IsMig(key: string) {
    HasPrefix(key, "mig.das.com/")
  }

  function Rename(key: string): string {
    if HasPrefix(key, "nvidia.com/mig-") then "mig.das.com/" + key[|"nvidia.com/mig-"|..]
    else if IsNvidia(key) then "mig.das.com/" + key[|"nvidia.com/"|..]
    else key
  }

  function Renamed(keys: set<string>): set<string> {
    set k | k in keys :: Rename(k)
  }

  function NvidiaKeys(m: Quantities): set<string> {
    set k | k in m && IsNvidia(k)
  }

  function PlainKeys(m: Quantities): set<string> {
    set k | k in m && !IsNvidia(k) && !IsMig(k)
  }

  /** Each new entry carries the quantity of some old key that renames to it (map order decides which). */
  predicate CopiedFrom(new_: Quantities, old_: Quantities, keys: set<string>) {
    && new_.Keys == Renamed(keys)
    && forall r :: r in new_ ==> exists k :: k in keys && k in old_ && Rename(k) == r && new_[r] == old_[k]
  }

  /** The requests after mutation: renamed GPU limits plus the requests that name no GPU. */
  ghost predicate NewRequests(c: Container, r: Quantities)
    requires c.limits.Some?
  {
    exists fromLimits: Quantities | CopiedFrom(fromLimits, c.limits.value, NvidiaKeys(c.limits.value)) ::
      r == fromLimits + (map k | k in PlainKeys(c.requests) :: c.requests[k])
  }

  /** Everything one run of the mutation may produce for a container. */
  ghost predicate Mutated(c: Container, c': Container) {
    if c.limits.None? then c' == c
    else
      && c'.name == c.name && c'.limits.Some?
      && CopiedFrom(c'.limits.value, c.limits.value, c.limits.value.Keys)
      && exists r :: NewRequests(c, r) && c'.requests == if r == map[] then c.requests else r
  }

  predicate NeedsScheduler(c: Container) {
    c.limits.Some? && exists k :: k in c.limits.value && (IsNvidia(k) || IsMig(k))
  }

  lemma RenameShape(key: string)
    ensures IsNvidia(key) ==> IsMig(Rename(key))
    ensures !IsNvidia(key) ==> Rename(key) == key
    ensures !IsNvidia(Rename(key)) && Rename(Rename(key)) == Rename(key)
  {
    assert "nvidia.com/mig-"[..11] == "nvidia.com/";
    if HasPrefix(key, "nvidia.com/mig-") {
      assert key[..11] == key[..15][..11];
    }
    MigIsNotNvidia(Rename(key));
  }

  lemma MigIsNotNvidia(key: string)
    ensures !(IsMig(key) && IsNvidia(key))
  {
    assert "mig.das.com/"[0] != "nvidia.com/"[0];
    assert IsMig(key) ==> key[..12][0] == 'm';
    assert IsNvidia(key) ==> key[..11][0] == 'n';
  }

  /** The loop over the limits. */
  method RenameLimits(limits: Quantities) returns (newLimits: Quantities, newRequests: Quantities, needs: bool)
    ensures CopiedFrom(newLimits, limits, limits.Keys)
    ensures CopiedFrom(newRequests, limits, NvidiaKeys(limits))
    ensures needs <==> exists k :: k in limits && (IsNvidia(k) || IsMig(k))
  {
    hide CopiedFrom, IsNvidia, IsMig, Rename;
    newLimits, newRequests, needs := map[], map[], false;
    CopyNone(limits);
    var todo := limits.Keys;
    ghost var done, nvidia: set<string> := {}, {};
    while todo != {}
      invariant done !! todo && done + todo == limits.Keys
      invariant forall k :: k in nvidia <==> k in done && IsNvidia(k)
      invariant CopiedFrom(newLimits, limits, done)
      invariant CopiedFrom(newRequests, limits, nvidia)
      invariant needs <==> exists k :: k in done && (IsNvidia(k) || IsMig(k))
      decreases |todo|
    {
      var key :| key in todo;
      CopyOne(newLimits, limits, done, key);
      newLimits := newLimits[Rename(key) := limits[key]];
      if IsNvidia(key) {
        CopyOne(newRequests, limits, nvidia, key);
        newRequests := newRequests[Rename(key) := limits[key]];
        nvidia := nvidia + {key};
        needs := true;
      } else if IsMig(key) {
        needs := true;
      }
      todo := todo - {key};
      done := done + {key};
    }
    assert done == limits.Keys && nvidia == NvidiaKeys(limits);
  }

  /** The loop over the requests. */
  method KeepPlainRequests(requests: Quantities, fromLimits: Quantities) returns (newRequests: Quantities)
    ensures newRequests == fromLimits + (map k | k in PlainKeys(requests) :: requests[k])
  {
    hide IsNvidia, IsMig, PlainPart, PlainKeys;
    newRequests := fromLimits;
    PlainPartEnds(requests);
    var todo := requests.Keys;
    ghost var seen: set<string> := {};
    while todo != {}
      invariant seen !! todo && seen + todo == requests.Keys
      invariant newRequests == fromLimits + PlainPart(requests, seen)
      decreases |todo|
    {
      var key :| key in todo;
      PlainPartStep(requests, fromLimits, seen, key);
      if !IsNvidia(key) && !IsMig(key) {
        newRequests := newRequests[key := requests[key]];
      }
      todo := todo - {key};
      seen := seen + {key};
    }
    assert seen == requests.Keys;
  }

  ghost function PlainPart(requests: Quantities, keys: set<string>): Quantities {
    map k | k in PlainKeys(requests) && k in keys :: requests[k]
  }

  lemma PlainPartEnds(requests: Quantities)
    ensures PlainPart(requests, {}) == map[]
    ensures PlainPart(requests, requests.Keys) == map k | k in PlainKeys(requests) :: requests[k]
  {
  }

  lemma PlainPartStep(requests: Quantities, fromLimits: Quantities, keys: set<string>, key: string)
    requires key in requests && key !in keys
    ensures fromLimits + PlainPart(requests, keys + {key}) ==
            if !IsNvidia(key) && !IsMig(key) then (fromLimits + PlainPart(requests, keys))[key := requests[key]]
            else fromLimits + PlainPart(requests, keys)
  {
  }

  /** mutateResources on one container. */
  method MutateResources(c: Container) returns (c': Container, needs: bool)
    ensures Mutated(c, c')
    ensures needs == NeedsScheduler(c)
  {
    hide IsNvidia, IsMig, Rename, PlainKeys, NvidiaKeys;
    needs := false;
    c' := c;
    if c.limits.None? {
      return;
    }
    var newLimits, fromLimits, wanted := RenameLimits(c.limits.value);
    needs := wanted;
    var newRequests := KeepPlainRequests(c.requests, fromLimits);
    assert NewRequests(c, newRequests);
    if newLimits != map[] {
      c' := c'.(limits := Some(newLimits));
    } else {
      assert forall k :: k in c.limits.value ==> Rename(k) in newLimits;
      assert c.limits.value == map[];
    }
    if newRequests != map[] {
      c' := c'.(requests := newRequests);
    }
  }

  lemma CopyNone(old_: Quantities)
    ensures CopiedFrom(map[], old_, {})
  {
  }

  lemma CopyOne(m: Quantities, old_: Quantities, keys: set<string>, key: string)
    requires CopiedFrom(m, old_, keys) && key in old_
    ensures CopiedFrom(m[Rename(key) := old_[key]], old_, keys + {key})
  {
  }

  /** mutatePod: every container is mutated; a GPU pod is sent to the secondary scheduler. */
  method MutatePod(pod: Pod) returns (pod': Pod)
    ensures |pod'.containers| == |pod.containers|
    ensures forall i :: 0 <= i < |pod.containers| ==> Mutated(pod.containers[i], pod'.containers[i])
    ensures var gpu := exists c, k :: c in pod.containers && c.limits.Some? && k in c.limits.value
                                      && (HasPrefix(k, "nvidia.com/") || HasPrefix(k, "mig.das.com/"));
      && pod'.scheduler == (if gpu then "das-scheduler" else pod.scheduler)
      && pod'.runtimeClass == (if gpu then "nvidia-legacy" else pod.runtimeClass)
  {
    hide Mutated, NeedsScheduler;
    var cs := pod.containers;
    var needsScheduler := false;
    var i := 0;
    while i < |cs|
      invariant 0 <= i <= |cs| == |pod.containers|
      invariant forall j :: 0 <= j < i ==> Mutated(pod.containers[j], cs[j])
      invariant forall j :: i <= j < |cs| ==> cs[j] == pod.containers[j]
      invariant needsScheduler <==> exists j :: 0 <= j < i && NeedsScheduler(pod.containers[j])
    {
      var c', needs := MutateResources(cs[i]);
      cs := cs[i := c'];
      needsScheduler := needsScheduler || needs;
      i := i + 1;
    }
    GpuPodIs(pod.containers);
    pod' := pod.(containers := cs);
    if needsScheduler {
      pod' := pod'.(scheduler := "das-scheduler", runtimeClass := "nvidia-legacy");
    }
  }

  lemma GpuPodIs(cs: seq<Container>)
    ensures (exists j :: 0 <= j < |cs| && NeedsScheduler(cs[j])) <==>
            exists c, k :: c in cs && c.limits.Some? && k in c.limits.value
                           && (HasPrefix(k, "nvidia.com/") || HasPrefix(k, "mig.das.com/"))
  {
    if j :| 0 <= j < |cs| && NeedsScheduler(cs[j]) {
      var k :| k in cs[j].limits.value && (IsNvidia(k) || IsMig(k));
      assert cs[j] in cs;
    }
    if c, k :| c in cs && c.limits.Some? && k in c.limits.value
               && (HasPrefix(k, "nvidia.com/") || HasPrefix(k, "mig.das.com/")) {
      assert IsNvidia(k) || IsMig(k);
    }
  }

  // ---- the names the nodes advertise ----

  /**
   * The webhook writes exactly the names the device plugin advertises, so a limit on a MIG profile
   * ends up at the server that looks up this profile.
   */
  lemma RenameIsAdvertised(p: string)
    ensures Rename("nvidia.com/mig-" + Sanitize(p)) == ResourceName(p)
    ensures '-' !in p && '/' !in p ==> LookupProfile(Rename("nvidia.com/mig-" + Sanitize(p))) == p
    ensures PlainProfile(p) ==>
      && LookupProfile(Rename("nvidia.com/mig-" + p)) == p
      && ProfileOf(Rename("nvidia.com/mig-" + p)) == Some(p)
  {
    var key := "nvidia.com/mig-" + Sanitize(p);
    assert key[..15] == "nvidia.com/mig-" && key[15..] == Sanitize(p);
    if '-' !in p && '/' !in p {
      ClaimsAreFound(p);
    }
    if PlainProfile(p) {
      PlainHasNoPlus(p);
      NoPlusUnchanged(p);
      ClaimsAreFound(p);
    }
  }

  /** Other nvidia.com names only change their domain, and all further names stay. */
  lemma RenameElsewhere(x: string, key: string)
    ensures !HasPrefix(x, "mig-") ==> Rename("nvidia.com/" + x) == "mig.das.com/" + x
    ensures !HasPrefix(key, "nvidia.com/") ==> Rename(key) == key
  {
    var k := "nvidia.com/" + x;
    assert k[..11] == "nvidia.com/" && k[11..] == x;
    if HasPrefix(k, "nvidia.com/mig-") {
      assert k[..15][11..] == x[..4] && "nvidia.com/mig-"[11..] == "mig-";
    }
    RenameShape(key);
  }

  // ---- what a second pass does ----

  /** Renaming the limits twice is renaming them once. */
  lemma LimitsIdempotent(c: Container, c1: Container, c2: Container)
    requires Mutated(c, c1) && Mutated(c1, c2)
    ensures c2.limits == c1.limits
  {
    if c.limits.Some? {
      var l1, l2 := c1.limits.value, c2.limits.value;
      forall r | r in l1
        ensures Rename(r) == r
      {
        var k :| k in c.limits.value && Rename(k) == r;
        RenameShape(k);
      }
      assert l2.Keys == l1.Keys;
      assert l1 == l2;
    }
  }

  lemma RequestShape(c: Container, r: Quantities)
    requires c.limits.Some? && NewRequests(c, r)
    ensures r.Keys == Renamed(NvidiaKeys(c.limits.value)) + PlainKeys(c.requests)
    ensures forall k :: k in PlainKeys(c.requests) ==> r[k] == c.requests[k]
    ensures forall k :: k in r && !IsMig(k) ==> k in PlainKeys(c.requests)
  {
  }

  /**
   * Mutating twice changes the requests exactly when the limits name an nvidia.com resource and the
   * requests name a non-GPU one: the second pass then drops the mig.das.com request it had added.
   */
  lemma RequestsIdempotent(c: Container, c1: Container, c2: Container)
    requires c.limits.Some? && Mutated(c, c1) && Mutated(c1, c2)
    ensures c2.requests == c1.requests <==> NvidiaKeys(c.limits.value) == {} || PlainKeys(c.requests) == {}
  {
    hide IsNvidia, IsMig, Rename, NewRequests;
    var r1 :| NewRequests(c, r1) && c1.requests == if r1 == map[] then c.requests else r1;
    var r2 :| NewRequests(c1, r2) && c2.requests == if r2 == map[] then c1.requests else r2;
    RequestShape(c, r1);
    RequestShape(c1, r2);
    assert NvidiaKeys(c1.limits.value) == {} by {
      forall r | r in c1.limits.value
        ensures !IsNvidia(r)
      {
        var k :| k in c.limits.value && Rename(k) == r;
        RenameShape(k);
      }
    }
    assert r2.Keys == PlainKeys(c1.requests);
    PlainAfter(c, c1, r1);
    if NvidiaKeys(c.limits.value) != {} && PlainKeys(c.requests) != {} {
      var k :| k in NvidiaKeys(c.limits.value);
      RenameShape(k);
      assert Rename(k) in r1 && Rename(k) !in r2;
      var q :| q in PlainKeys(c.requests);
      assert q in r2;
    } else if r2 != map[] {
      assert c1.requests.Keys == PlainKeys(c1.requests) == r2.Keys;
      assert r2 == c1.requests;
    }
  }

  lemma PlainAfter(c: Container, c1: Container, r1: Quantities)
    requires c.limits.Some? && NewRequests(c, r1) && c1.requests == if r1 == map[] then c.requests else r1
    ensures PlainKeys(c1.requests) == PlainKeys(c.requests)
    ensures NvidiaKeys(c.limits.value) == {} && PlainKeys(c.requests) != {} ==>
      c1.requests.Keys == PlainKeys(c.requests)
    ensures NvidiaKeys(c.limits.value) != {} ==> c1.requests == r1
  {
    RequestShape(c, r1);
    if k :| k in NvidiaKeys(c.limits.value) {
      assert Rename(k) in r1;
    }
    assert forall k :: k in PlainKeys(c.requests) ==> k in r1;
  }

  // ---- demand ----

  /** A plain nvidia.com key carrying a profile pattern that only its new name lets the scheduler see. */
  predicate HidesProfile(key: string) {
    && IsNvidia(key) && !Contains(key, "nvidia.com/mig-") && !Contains(key, "mig.das.com/")
    && FirstMatch(key).Some?
  }

  lemma RenameKeepsProfile(key: string)
    ensures ProfileOf(Rename(key)) == ProfileOf(key) <==> !HidesProfile(key)
    ensures ProfileOf(key).Some? ==> ProfileOf(Rename(key)) == ProfileOf(key)
  {
    var r := Rename(key);
    if HasPrefix(key, "nvidia.com/mig-") {
      var x := key[15..];
      assert key == "nvidia.com/mig-" + x && r == "mig.das.com/" + x;
      FirstMatchSkips("nvidia.com/mig-", x, 0);
      FirstMatchSkips("mig.das.com/", x, 0);
      assert HasPrefix(r, "mig.das.com/");
    } else if IsNvidia(key) {
      var x := key[11..];
      assert key == "nvidia.com/" + x && r == "mig.das.com/" + x;
      FirstMatchSkips("nvidia.com/", x, 0);
      FirstMatchSkips("mig.das.com/", x, 0);
      assert HasPrefix(r, "mig.das.com/");
    }
  }

  /** No two limit keys rename to the same key. */
  predicate RenamesApart(limits: Quantities) {
    forall a, b :: a in limits && b in limits && Rename(a) == Rename(b) ==> a == b
  }

  lemma DemandAtRenamed(limits: Quantities, limits': Quantities, p: string, k: string)
    requires CopiedFrom(limits', limits, limits.Keys) && RenamesApart(limits) && k in limits
    ensures var f, g := DemandAt(limits, p), DemandAt(limits', p);
      && f(k) <= g(Rename(k))
      && (f(k) < g(Rename(k)) <==> HidesProfile(k) && ProfileOf(Rename(k)) == Some(p))
  {
    hide ProfileOf, HidesProfile;
    RenameKeepsProfile(k);
    assert Rename(k) in limits' && limits'[Rename(k)] == limits[k];
    HidesMeansNone(k);
  }

  lemma HidesMeansNone(key: string)
    ensures HidesProfile(key) ==> ProfileOf(key).None? && ProfileOf(Rename(key)).Some?
  {
    RenameKeepsProfile(key);
  }

  lemma DemandOfProfile(limits: Quantities, limits': Quantities, p: string)
    requires CopiedFrom(limits', limits, limits.Keys) && RenamesApart(limits)
    ensures Demand(limits', p) == Demand(limits, p) <==>
            forall k :: k in limits ==> !(HidesProfile(k) && ProfileOf(Rename(k)) == Some(p))
  {
    hide ProfileOf, HidesProfile, Rename, DemandAt;
    var f, g := DemandAt(limits, p), DemandAt(limits', p);
    var via: string -> nat := k => g(Rename(k));
    var rename: string -> string := k => Rename(k);
    SumImage(limits.Keys, limits'.Keys, rename, via, g);
    forall k | k in limits.Keys
      ensures f(k) <= via(k) && (f(k) == via(k) <==> !(HidesProfile(k) && ProfileOf(Rename(k)) == Some(p)))
    {
      DemandAtRenamed(limits, limits', p, k);
    }
    SumMonotone(limits.Keys, f, via);
  }

  /**
   * Demand survives the webhook: when no two limit keys collide after renaming, the scheduler reads
   * the same slices of every profile before and after, exactly when no key hides a profile.
   */
  lemma DemandSurvives(c: Container, c': Container)
    requires Mutated(c, c') && c.limits.Some? && RenamesApart(c.limits.value)
    ensures (forall p :: Demand(c'.limits.value, p) == Demand(c.limits.value, p)) <==>
            forall k :: k in c.limits.value ==> !HidesProfile(k)
  {
    hide ProfileOf, HidesProfile, Demand;
    var limits, limits' := c.limits.value, c'.limits.value;
    forall p
      ensures Demand(limits', p) == Demand(limits, p) <==>
              forall k :: k in limits ==> !(HidesProfile(k) && ProfileOf(Rename(k)) == Some(p))
    {
      DemandOfProfile(limits, limits', p);
    }
    if k :| k in limits && HidesProfile(k) {
      HidesMeansNone(k);
      var p := ProfileOf(Rename(k)).value;
      assert Demand(limits', p) != Demand(limits, p);
    }
  }
}
