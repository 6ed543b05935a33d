/** The inductive invariant of the claim protocol, and its proof step by step. */
module ProtocolInvariant {
  import opened Claims
  import opened SlotSearch
  import opened Greedy
  import opened SchedulerSpec
  import opened Protocol

  /** A claim sits on a listed GPU of its node, at a listed start of its profile. */
  predicate WellPlaced(cfg: Config, c: Claim) {
    && c.node in cfg && c.gpu in cfg[c.node].gpus && c.profile in cfg[c.node].table
    && c.size == ProfileSize(cfg[c.node], c.profile) && InRange(c)
    && exists j :: 0 <= j < |cfg[c.node].table[c.profile]| && cfg[c.node].table[c.profile][j].start == c.start
  }

  predicate AllPlaced(cfg: Config, m: ClaimMap) {
    Keyed(m) && forall k :: k in m ==> WellPlaced(cfg, m[k])
  }

  predicate SafeStore(cfg: Config, m: ClaimMap) {
    AllPlaced(cfg, m) && NoOverlap(m) && StagedExclusive(m)
  }

  /** The index entry is the live claim in its present or an earlier status, but not the empty one. */
  predicate Lags(old_: Claim, now: Claim) {
    SameSpec(old_, now) && 1 <= old_.phase.Rank() <= now.phase.Rank()
  }

  /** A claim some Filter call has created and is still staging or already abandoning. */
  predicate Pending(s: State, k: Key) {
    && s.cycle == Some(k.pod) && k.node in s.runs
    && var pc := s.runs[k.node].pc;
    || (pc.AtStage? && pc.key == k)
    || (pc.AtPublish? && pc.key == k)
    || (pc.AtAbort? && k in pc.todo)
    || (pc.AtAbortIndex? && k in pc.todo)
  }

  predicate CoveredAt(s: State, k: Key) {
    k in s.store && !Pending(s, k) ==> k in s.index && Lags(s.index[k], s.store[k])
  }

  /** Every live claim is indexed, except those a Filter call still has in its hands. */
  ghost predicate IndexCovers(s: State) {
    forall k :: k in s.store ==> CoveredAt(s, k)
  }

  /** PreBind has not listed this pod's claims yet. */
  predicate Fresh(s: State, pod: string) {
    pod in s.binds ==> s.binds[pod].Chosen?
  }

  predicate Unpromoted(s: State) {
    && (forall k :: k in s.store && Fresh(s, k.pod) ==> s.store[k].phase.Rank() <= 1)
    && (forall k :: k in s.index && Fresh(s, k.pod) ==> s.index[k].phase.Rank() <= 1)
  }

  /** The pod's claims on the node are among these. */
  ghost predicate Mine(m: ClaimMap, pod: string, node: string, ks: set<Key>) {
    forall k :: k in m && k.pod == pod && k.node == node ==> k in ks
  }

  /** The tables mark every live claim, and no other pod is staging on a usable GPU. */
  predicate Guarded(m: ClaimMap, pod: string, node: string, occ: Tables, except: set<Key>) {
    forall k :: k in m && k.node == node && m[k].gpu in occ && k !in except ==>
      Marked(occ[m[k].gpu], m[k]) && (k.pod != pod ==> m[k].phase.Rank() >= 2)
  }

  predicate Progress(pod: string, node: string, r: Run) {
    |r.done| <= |r.reqs| && forall i :: 0 <= i < |r.done| ==> r.done[i] == KeyOf(pod, node, r.reqs[i])
  }

  predicate AllStaged(m: ClaimMap, ks: seq<Key>) {
    forall k :: k in ks ==> k in m && m[k].phase == Staged
  }

  /** Each placed request has a claim of its profile. */
  predicate AsAsked(m: ClaimMap, r: Run) {
    && |r.done| <= |r.reqs|
    && forall i :: 0 <= i < |r.done| && r.done[i] in m ==> m[r.done[i]].profile == r.reqs[i].profile
  }

  /** The call placed every request. */
  predicate Satisfied(r: Run) {
    |r.done| == |r.reqs|
  }

  /** The pod's claims on the node are exactly those of the placed requests, staged, in the store and in the index. */
  ghost predicate Held(s: State, pod: string, node: string, r: Run) {
    && Mine(s.store, pod, node, Keys(r.done)) && Mine(s.index, pod, node, Keys(r.done))
    && AllStaged(s.store, r.done) && AsAsked(s.store, r)
  }

  ghost predicate HoldsNothing(s: State, pod: string, node: string) {
    Mine(s.store, pod, node, {}) && Mine(s.index, pod, node, {})
  }

  /** What holds of one Filter call at each point. */
  ghost predicate RunInv(cfg: Config, s: State, pod: string, node: string) {
    && node in s.runs && node in cfg
    && var r := s.runs[node];
    && DistinctReqs(r.reqs) && Progress(pod, node, r)
    && match r.pc
       case AtPurge =>
         Mine(s.store, pod, node, r.items) && Mine(s.index, pod, node, r.items) && r.done == [] && r.occ == map[]
         && forall k :: k in r.items ==> k.pod == pod && k.node == node
       case AtPurgeIndex(k0) =>
         && Mine(s.store, pod, node, r.items) && Mine(s.index, pod, node, r.items + {k0})
         && r.done == [] && r.occ == map[]
         && k0 !in s.store && k0.pod == pod && k0.node == node
         && forall k :: k in r.items ==> k.pod == pod && k.node == node
       case AtRead(i) =>
         && Mine(s.store, pod, node, {}) && Mine(s.index, pod, node, {})
         && r.done == [] && Guarded(s.store, pod, node, r.occ, {})
       case AtPlace =>
         Held(s, pod, node, r) && Guarded(s.store, pod, node, r.occ, {})
       case AtStage(k0, want) =>
         && Mine(s.store, pod, node, Keys(r.done) + {k0}) && Mine(s.index, pod, node, Keys(r.done) + {k0})
         && AllStaged(s.store, r.done) && Guarded(s.store, pod, node, r.occ, {k0})
         && |r.done| < |r.reqs| && k0 == KeyOf(pod, node, r.reqs[|r.done|])
         && k0 in s.store && s.store[k0] == want && want.phase == Unset && want.gpu in r.occ
         && AsAsked(s.store, r) && want.profile == r.reqs[|r.done|].profile
       case AtPublish(k0, want, got) =>
         && Mine(s.store, pod, node, Keys(r.done) + {k0}) && Mine(s.index, pod, node, Keys(r.done) + {k0})
         && AllStaged(s.store, r.done) && Guarded(s.store, pod, node, r.occ, {k0})
         && |r.done| < |r.reqs| && k0 == KeyOf(pod, node, r.reqs[|r.done|])
         && k0 in s.store && s.store[k0] == got && got == want.(phase := Staged) && want.gpu in r.occ
         && AsAsked(s.store, r) && want.profile == r.reqs[|r.done|].profile
       case AtUndo(todo) =>
         && !Satisfied(r) && Mine(s.store, pod, node, Keys(todo))
         && forall k :: k in todo ==> k.pod == pod && k.node == node
       case AtAbort(todo, _) =>
         && !Satisfied(r) && Mine(s.store, pod, node, Keys(todo)) && Mine(s.index, pod, node, Keys(todo))
         && forall k :: k in todo ==> k.pod == pod && k.node == node
       case AtAbortIndex(k0, todo, _) =>
         && !Satisfied(r) && Mine(s.store, pod, node, Keys(todo)) && Mine(s.index, pod, node, Keys(todo) + {k0})
         && k0 !in s.store && k0.pod == pod && k0.node == node
         && forall k :: k in todo ==> k.pod == pod && k.node == node
       case AtDone(passed) =>
         && (passed ==> forall k :: k in s.index && k.pod == pod && k.node == node ==> k in s.store)
         && (!passed ==> Mine(s.store, pod, node, {}))
         && (Satisfied(r) ==> Held(s, pod, node, r))
         && (passed && !Satisfied(r) ==> HoldsNothing(s, pod, node))
  }

  ghost predicate RunsInv(cfg: Config, s: State) {
    && (s.cycle.None? ==> s.runs == map[])
    && (s.cycle.Some? ==> s.cycle.value !in s.binds && forall n :: n in s.runs ==> RunInv(cfg, s, s.cycle.value, n))
  }

  /** Items PreBind has not reached yet: still staged, and on the chosen node still stored. */
  ghost predicate ItemsInv(cfg: Config, s: State, pod: string, node: string, items: ClaimMap) {
    && AllPlaced(cfg, items)
    && forall k :: k in items ==> (
         && k.pod == pod && items[k].phase.Rank() <= 1
         && (k.node == node ==> k in s.store && s.store[k].phase == Staged))
  }

  /** Every stored claim of the pod is still to be visited, or is promoted and on the chosen node. */
  ghost predicate Accounted(m: ClaimMap, pod: string, node: string, items: ClaimMap) {
    forall k :: k in m && k.pod == pod ==> k in items || (k.node == node && m[k].phase.Rank() >= 2)
  }

  ghost predicate BindInv(cfg: Config, s: State, pod: string) {
    && pod in s.binds
    && match s.binds[pod]
       case Chosen(n, r) =>
         && (forall k :: k in s.index && k.pod == pod && k.node == n ==> k in s.store)
         && DistinctReqs(r.reqs) && Progress(pod, n, r)
         && (if Satisfied(r) then Held(s, pod, n, r) else HoldsNothing(s, pod, n))
       case Promote(n, items) => ItemsInv(cfg, s, pod, n, items) && Accounted(s.store, pod, n, items)
       case PromoteIndex(n, items, k0, got) =>
         && ItemsInv(cfg, s, pod, n, items) && Accounted(s.store, pod, n, items) && k0.pod == pod && k0 !in items
         && AllPlaced(cfg, map[k0 := got]) && got.phase == Created
         && (k0 in s.store ==> Lags(got, s.store[k0]))
       case DropIndex(n, items, k0) =>
         ItemsInv(cfg, s, pod, n, items) && Accounted(s.store, pod, n, items) && k0.pod == pod && k0 !in s.store
       case Bound(n) => Accounted(s.store, pod, n, map[])
  }

  ghost predicate BindsInv(cfg: Config, s: State) {
    forall p :: p in s.binds ==> BindInv(cfg, s, p)
  }

  predicate SweepInv(s: State) {
    && (forall k :: k in s.doomed ==> !Fresh(s, k.pod) && (k in s.store ==> s.store[k].phase.Rank() >= 2))
    && (forall k :: k in s.swept ==> !Fresh(s, k.pod) && k !in s.store)
  }

  ghost predicate Inv(cfg: Config, s: State) {
    && SafeStore(cfg, s.store)
    && AllPlaced(cfg, s.index)
    && IndexCovers(s)
    && Unpromoted(s)
    && RunsInv(cfg, s)
    && BindsInv(cfg, s)
    && SweepInv(s)
    && UnsetPending(s)
  }

  /** Only a claim in a Filter call's hands has no status yet. */
  predicate UnsetPending(s: State) {
    forall k :: k in s.store && s.store[k].phase == Unset ==> Pending(s, k)
  }

  // ---- frames ----

  ghost predicate SameAtKey(a: ClaimMap, b: ClaimMap, k: Key) {
    (k in a <==> k in b) && (k in a ==> a[k] == b[k])
  }

  /** Claims only disappear or move forward. */
  ghost predicate Advances(a: ClaimMap, b: ClaimMap) {
    forall k :: k in b ==> k in a && SameSpec(a[k], b[k]) && a[k].phase.Rank() <= b[k].phase.Rank()
  }

  lemma AdvancingIsSafe(cfg: Config, a: ClaimMap, b: ClaimMap)
    requires SafeStore(cfg, a) && Advances(a, b)
    ensures SafeStore(cfg, b)
  {
    assert forall k :: k in b ==> a[k].(phase := Unset) == b[k].(phase := Unset);
  }

  /** A step leaves a Filter call alone: others' claims on its node advance, its own stay. */
  ghost predicate LeavesRun(s: State, s': State, pod: string, node: string) {
    && node in s.runs && node in s'.runs && s'.runs[node] == s.runs[node]
    && (forall k: Key :: k.node == node && k in s'.store ==>
          k in s.store && SameSpec(s.store[k], s'.store[k]) && s.store[k].phase.Rank() <= s'.store[k].phase.Rank())
    && (forall k: Key :: k.node == node && k.pod == pod ==> SameAtKey(s.store, s'.store, k))
    && (forall k: Key :: k.node == node && k.pod == pod && k in s'.index ==> k in s.index || k in s.store)
  }

  lemma GuardedFrame(m: ClaimMap, m': ClaimMap, pod: string, node: string, occ: Tables, except: set<Key>)
    requires Guarded(m, pod, node, occ, except)
    requires forall k: Key :: k.node == node && k in m' ==>
      k in m && SameSpec(m[k], m'[k]) && m[k].phase.Rank() <= m'[k].phase.Rank()
    ensures Guarded(m', pod, node, occ, except)
  {
  }

  lemma HeldFrame(s: State, s': State, pod: string, node: string, r: Run)
    requires LeavesRun(s, s', pod, node) && Progress(pod, node, r)
    ensures Held(s, pod, node, r) ==> Held(s', pod, node, r)
  {
  }

  lemma RunFrame(cfg: Config, s: State, s': State, pod: string, node: string)
    requires RunInv(cfg, s, pod, node) && LeavesRun(s, s', pod, node)
    ensures RunInv(cfg, s', pod, node)
  {
    hide RunInv;
    var pc := s.runs[node].pc;
    if pc.AtStage? || pc.AtPublish? {
      RunFrameInHand(cfg, s, s', pod, node);
    } else {
      RunFrameElse(cfg, s, s', pod, node);
    }
  }

  lemma RunFrameInHand(cfg: Config, s: State, s': State, pod: string, node: string)
    requires RunInv(cfg, s, pod, node) && LeavesRun(s, s', pod, node)
    requires s.runs[node].pc.AtStage? || s.runs[node].pc.AtPublish?
    ensures RunInv(cfg, s', pod, node)
  {
    hide Guarded, DistinctReqs;
    var r := s.runs[node];
    GuardedFrame(s.store, s'.store, pod, node, r.occ, {r.pc.key});
  }

  lemma RunFrameElse(cfg: Config, s: State, s': State, pod: string, node: string)
    requires RunInv(cfg, s, pod, node) && LeavesRun(s, s', pod, node)
    requires !s.runs[node].pc.AtStage? && !s.runs[node].pc.AtPublish?
    ensures RunInv(cfg, s', pod, node)
  {
    hide Guarded, DistinctReqs, Held, Progress;
    var r := s.runs[node];
    HeldFrame(s, s', pod, node, r);
    if r.pc.AtRead? || r.pc.AtPlace? {
      GuardedFrame(s.store, s'.store, pod, node, r.occ, {});
    }
  }

  /** A step leaves a binding cycle alone: its staged claims stay, its others advance. */
  ghost predicate LeavesBind(s: State, s': State, pod: string) {
    && pod in s.binds && pod in s'.binds && s'.binds[pod] == s.binds[pod]
    && (forall k: Key :: k.pod == pod && k in s'.store ==>
          k in s.store && SameSpec(s.store[k], s'.store[k]) && s.store[k].phase.Rank() <= s'.store[k].phase.Rank())
    && (forall k: Key :: k.pod == pod && k in s.store && s.store[k].phase.Rank() <= 1 ==>
          SameAtKey(s.store, s'.store, k))
    && (forall k: Key :: k.pod == pod && k in s'.index ==> k in s.index || k in s.store)
  }

  lemma BindFrame(cfg: Config, s: State, s': State, pod: string)
    requires BindInv(cfg, s, pod) && LeavesBind(s, s', pod)
    requires s.binds[pod].Chosen? ==> forall k :: k in s.store && k.pod == pod ==> s.store[k].phase.Rank() <= 1
    ensures BindInv(cfg, s', pod)
  {
    hide WellPlaced;
  }

  // ---- steps of a Filter call ----

  /** The step touches nothing but one Filter call and its pod's claims on that node. */
  ghost predicate OnlyRun(s: State, s': State, pod: string, node: string) {
    && s'.cycle == s.cycle == Some(pod) && s'.binds == s.binds && s'.doomed == s.doomed && s'.swept == s.swept
    && s'.runs.Keys == s.runs.Keys + {node} && (forall n :: n in s.runs && n != node ==> s'.runs[n] == s.runs[n])
    && (forall k: Key :: k.pod != pod || k.node != node ==>
          SameAtKey(s.store, s'.store, k) && SameAtKey(s.index, s'.index, k))
  }

  /** What is left to show of the pod's own claims on the node. */
  ghost predicate OwnOk(s': State, pod: string, node: string) {
    && (forall k :: k in s'.store && k.pod == pod && k.node == node ==>
          CoveredAt(s', k) && s'.store[k].phase.Rank() <= 1 && (s'.store[k].phase == Unset ==> Pending(s', k)))
    && (forall k :: k in s'.index && k.pod == pod && k.node == node ==> s'.index[k].phase.Rank() <= 1)
  }

  lemma OnlyRunKeepsInv(cfg: Config, s: State, s': State, pod: string, node: string)
    requires Inv(cfg, s) && OnlyRun(s, s', pod, node)
    requires SafeStore(cfg, s'.store) && AllPlaced(cfg, s'.index)
    requires OwnOk(s', pod, node) && RunInv(cfg, s', pod, node)
    ensures Inv(cfg, s')
  {
    hide SafeStore, AllPlaced, IndexCovers, Unpromoted, SweepInv, UnsetPending, RunInv, BindInv, OwnOk;
    OnlyRunIndex(s, s', pod, node);
    OnlyRunPhases(s, s', pod, node);
    OnlyRunSweep(s, s', pod, node);
    forall n | n in s'.runs
      ensures RunInv(cfg, s', pod, n)
    {
      if n != node {
        OnlyRunLeavesRun(s, s', pod, node, n);
        RunFrame(cfg, s, s', pod, n);
      }
    }
    forall p | p in s'.binds
      ensures BindInv(cfg, s', p)
    {
      OnlyRunLeavesBind(s, s', pod, node, p);
      ChosenIsUnpromoted(s, p);
      BindFrame(cfg, s, s', p);
    }
  }

  lemma OnlyRunLeavesRun(s: State, s': State, pod: string, node: string, n: string)
    requires OnlyRun(s, s', pod, node) && n in s.runs && n != node
    ensures LeavesRun(s, s', pod, n)
  {
  }

  lemma OnlyRunLeavesBind(s: State, s': State, pod: string, node: string, p: string)
    requires OnlyRun(s, s', pod, node) && p in s.binds && p != pod
    ensures LeavesBind(s, s', p)
  {
  }

  lemma ChosenIsUnpromoted(s: State, p: string)
    requires Unpromoted(s) && p in s.binds
    ensures s.binds[p].Chosen? ==> forall k :: k in s.store && k.pod == p ==> s.store[k].phase.Rank() <= 1
  {
  }

  lemma OnlyRunIndex(s: State, s': State, pod: string, node: string)
    requires OnlyRun(s, s', pod, node) && OwnOk(s', pod, node) && IndexCovers(s) && UnsetPending(s)
    ensures IndexCovers(s') && UnsetPending(s')
  {
  }

  lemma OnlyRunPhases(s: State, s': State, pod: string, node: string)
    requires OnlyRun(s, s', pod, node) && OwnOk(s', pod, node) && Unpromoted(s)
    ensures Unpromoted(s')
  {
  }

  lemma OnlyRunSweep(s: State, s': State, pod: string, node: string)
    requires OnlyRun(s, s', pod, node) && SweepInv(s) && pod !in s.binds
    ensures SweepInv(s')
  {
  }
}
