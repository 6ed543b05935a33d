/** What holds in every state of every run of the claim protocol. */
module Runs {
  import opened Claims
  import opened SlotSearch
  import opened SchedulerSpec
  import opened Protocol
  import opened ProtocolInvariant
  import opened FilterSteps
  import opened OtherSteps
  import opened Capacity

  /** A run: states joined by steps, from an empty cluster. */
  ghost predicate IsRun(cfg: Config, states: seq<State>, actions: seq<Action>) {
    && |states| == |actions| + 1
    && Init(states[0])
    && forall i :: 0 <= i < |actions| ==> Step(cfg, states[i], actions[i], states[i + 1])
  }

  lemma StepKeepsInv(cfg: Config, s: State, a: Action, s': State)
    requires Inv(cfg, s) && Step(cfg, s, a, s')
    ensures Inv(cfg, s')
  {
    hide Inv, FilterMove, CycleMove, BindMove, OtherMove;
    if FilterMove(cfg, s, a, s') {
      FilterMoveKeeps(cfg, s, a, s');
    } else if CycleMove(s, a, s') {
      CycleMoveKeeps(cfg, s, a, s');
    } else if BindMove(s, a, s') {
      BindMoveKeeps(cfg, s, a, s');
    } else {
      OtherMoveKeeps(cfg, s, a, s');
    }
  }

  lemma {:induction false} RunKeepsInv(cfg: Config, states: seq<State>, actions: seq<Action>, n: nat)
    requires IsRun(cfg, states, actions) && n < |states|
    ensures Inv(cfg, states[n])
  {
    hide Step;
    if n > 0 {
      RunKeepsInv(cfg, states, actions, n - 1);
      hide Inv;
      assert Step(cfg, states[n - 1], actions[n - 1], states[n - 1 + 1]);
      StepKeepsInv(cfg, states[n - 1], actions[n - 1], states[n]);
    }
  }

  /** No double booking: in every run, live claims on one GPU are disjoint and lie within its eight slots. */
  lemma NoDoubleBooking(cfg: Config, states: seq<State>, actions: seq<Action>, n: nat)
    requires IsRun(cfg, states, actions) && n < |states|
    ensures NoOverlap(states[n].store)
    ensures forall k :: k in states[n].store ==> InRange(states[n].store[k]) && SupportedSize(states[n].store[k].size)
  {
    RunKeepsInv(cfg, states, actions, n);
    forall k | k in states[n].store
      ensures SupportedSize(states[n].store[k].size)
    {
      SupportedStays(cfg, states, actions, n, k);
    }
  }

  /** Every claim has one of the four sizes the slot search supports. */
  lemma {:induction false} SupportedStays(cfg: Config, states: seq<State>, actions: seq<Action>, n: nat, k: Key)
    requires IsRun(cfg, states, actions) && n < |states| && k in states[n].store
    ensures SupportedSize(states[n].store[k].size)
  {
    hide Inv, Step, SupportedSize;
    if n > 0 {
      var s, a, s' := states[n - 1], actions[n - 1], states[n];
      assert Step(cfg, s, a, states[n - 1 + 1]);
      RunKeepsInv(cfg, states, actions, n - 1);
      LifecycleStep(cfg, s, a, s', k);
      if k in s.store {
        SupportedStays(cfg, states, actions, n - 1, k);
      }
    }
  }

  /**
   * Every live claim of every run is booked as its node's table lists it: on a GPU of the node, at a
   * listed start, with the size listed first for its profile, so that where a profile's sizes are
   * equal the claim's placement is one of the table.
   */
  lemma BookedAsListed(cfg: Config, states: seq<State>, actions: seq<Action>, n: nat, k: Key)
    requires IsRun(cfg, states, actions) && n < |states| && k in states[n].store
    ensures var c := states[n].store[k];
      && c.pod == k.pod && c.node == k.node && c.node in cfg && c.gpu in cfg[c.node].gpus
      && c.profile in cfg[c.node].table && cfg[c.node].table[c.profile] != []
      && var ps := cfg[c.node].table[c.profile];
      && c.size == ps[0].size
      && (exists j :: 0 <= j < |ps| && ps[j].start == c.start)
      && ((forall j :: 0 <= j < |ps| ==> ps[j].size == ps[0].size) ==> Placement(c.size, c.start) in ps)
  {
    hide IndexCovers, Unpromoted, RunsInv, BindsInv, SweepInv, UnsetPending, NoOverlap, StagedExclusive;
    RunKeepsInv(cfg, states, actions, n);
    var c := states[n].store[k];
    var ps := cfg[c.node].table[c.profile];
    var j :| 0 <= j < |ps| && ps[j].start == c.start;
    assert ps[j].size == c.size ==> ps[j] == Placement(c.size, c.start);
  }

  /** Staging is exclusive per GPU: claims not yet promoted on one GPU belong to one pod. */
  lemma StagingIsExclusive(cfg: Config, states: seq<State>, actions: seq<Action>, n: nat)
    requires IsRun(cfg, states, actions) && n < |states|
    ensures StagedExclusive(states[n].store)
  {
    RunKeepsInv(cfg, states, actions, n);
  }

  /**
   * The index stays a superset of the store: a live claim is indexed with its placement, unless the
   * pod's own Filter call on its node has it in its hands, between creating and publishing it or
   * abandoning it.
   */
  lemma IndexIsSuperset(cfg: Config, states: seq<State>, actions: seq<Action>, n: nat, k: Key)
    requires IsRun(cfg, states, actions) && n < |states| && k in states[n].store
    requires !Pending(states[n], k)
    ensures k in states[n].index && SameSpec(states[n].index[k], states[n].store[k])
    ensures states[n].store[k].phase == Staged ==> states[n].index[k].phase == Staged
  {
    hide Step, SafeStore, AllPlaced, Unpromoted, RunsInv, BindsInv, SweepInv, UnsetPending;
    RunKeepsInv(cfg, states, actions, n);
    assert CoveredAt(states[n], k);
  }

  /** So whatever the Filter calls of the current cycle are doing, every other pod's live claims are indexed. */
  lemma OthersAreIndexed(cfg: Config, states: seq<State>, actions: seq<Action>, n: nat, k: Key)
    requires IsRun(cfg, states, actions) && n < |states| && k in states[n].store
    requires states[n].cycle != Some(k.pod)
    ensures k in states[n].index && SameSpec(states[n].index[k], states[n].store[k])
  {
    IndexIsSuperset(cfg, states, actions, n, k);
  }

  /** What one step may do to one claim: nothing, delete it, move it one phase on, or create it without status. */
  predicate Forward(before: ClaimMap, after: ClaimMap, k: Key) {
    k in after ==>
      if k in before then
        after[k] == before[k] || (SameSpec(after[k], before[k]) && after[k].phase.Rank() == before[k].phase.Rank() + 1)
      else after[k].phase == Unset && SupportedSize(after[k].size)
  }

  /** The claim lifecycle only moves forward, one phase at a time, although PreBind's guard would allow more. */
  lemma LifecycleStep(cfg: Config, s: State, a: Action, s': State, k: Key)
    requires Inv(cfg, s) && Step(cfg, s, a, s')
    ensures Forward(s.store, s'.store, k)
  {
    hide Inv, Forward, DoCreate, DoStage, DoBindStore;
    match a
    case Create(node) => CreateForward(cfg, s, s', node, k);
    case Stage(node) => StageForward(cfg, s, s', node, k);
    case BindStore(pod, q) => BindForward(cfg, s, s', pod, q, k);
    case _ => QuietForward(cfg, s, a, s', k);
  }

  lemma CreateForward(cfg: Config, s: State, s': State, node: string, k: Key)
    requires Inv(cfg, s) && DoCreate(cfg, s, node, s')
    ensures Forward(s.store, s'.store, k)
  {
    hide Inv;
    WantIsPlaced(cfg, s, node, s.cycle.value);
    Greedy.ChooseFits(cfg[node], s.runs[node].occ, s.runs[node].reqs[|s.runs[node].done|].profile, 0);
  }

  lemma StageForward(cfg: Config, s: State, s': State, node: string, k: Key)
    requires Inv(cfg, s) && DoStage(s, node, s')
    ensures Forward(s.store, s'.store, k)
  {
    hide Inv, SafeStore, AllPlaced, IndexCovers, OwnOk, Guarded, Mine, AllStaged;
    InvBefore(cfg, s, s.cycle.value, node);
  }

  lemma BindForward(cfg: Config, s: State, s': State, pod: string, q: Key, k: Key)
    requires Inv(cfg, s) && DoBindStore(s, pod, q, s')
    ensures Forward(s.store, s'.store, k)
  {
    hide Inv;
    if s.binds[pod].items[q].node == s.binds[pod].node {
      PromotionNeverFails(cfg, s, pod, q);
    }
  }

  /** All other steps keep each stored claim, delete it, or are a device step on it. */
  lemma QuietForward(cfg: Config, s: State, a: Action, s': State, k: Key)
    requires Step(cfg, s, a, s') && !a.Create? && !a.Stage? && !a.BindStore?
    ensures Forward(s.store, s'.store, k)
  {
    hide FilterMove, CycleMove, BindMove, OtherMove, Forward;
    if FilterMove(cfg, s, a, s') {
      QuietFilter(cfg, s, a, s', k);
    } else if CycleMove(s, a, s') {
      QuietCycle(s, a, s', k);
    } else if BindMove(s, a, s') {
      QuietBind(s, a, s', k);
    } else {
      QuietOther(s, a, s', k);
    }
  }

  lemma QuietFilter(cfg: Config, s: State, a: Action, s': State, k: Key)
    requires FilterMove(cfg, s, a, s') && !a.Create? && !a.Stage?
    ensures Forward(s.store, s'.store, k)
  {
    hide Own, HeldByOther, Occupied, Choice, DoCreate, DoStage;
    assert k in s'.store ==> k in s.store && s'.store[k] == s.store[k];
  }

  lemma QuietCycle(s: State, a: Action, s': State, k: Key)
    requires CycleMove(s, a, s')
    ensures Forward(s.store, s'.store, k)
  {
  }

  lemma QuietBind(s: State, a: Action, s': State, k: Key)
    requires BindMove(s, a, s') && !a.BindStore?
    ensures Forward(s.store, s'.store, k)
  {
  }

  lemma QuietOther(s: State, a: Action, s': State, k: Key)
    requires OtherMove(s, a, s')
    ensures Forward(s.store, s'.store, k)
  {
  }

  /** Over a whole run: while a name stays live its placement is fixed and its phase never falls. */
  lemma {:induction false} Lifecycle(cfg: Config, states: seq<State>, actions: seq<Action>, i: nat, j: nat, k: Key)
    requires IsRun(cfg, states, actions) && i <= j < |states|
    requires forall n :: i <= n <= j ==> k in states[n].store
    ensures SameSpec(states[i].store[k], states[j].store[k])
    ensures states[i].store[k].phase.Rank() <= states[j].store[k].phase.Rank()
    decreases j - i
  {
    hide Step, Inv;
    if i < j {
      Lifecycle(cfg, states, actions, i, j - 1, k);
      RunKeepsInv(cfg, states, actions, j - 1);
      assert Step(cfg, states[j - 1], actions[j - 1], states[j - 1 + 1]);
      LifecycleStep(cfg, states[j - 1], actions[j - 1], states[j], k);
    }
  }

  // ---- a promoted name never comes back ----

  /** Where PreBind has listed a pod's claims, the pod stays bound to its node and its list only shrinks. */
  lemma BindStays(cfg: Config, s: State, a: Action, s': State, pod: string)
    requires Inv(cfg, s) && Step(cfg, s, a, s') && !Fresh(s, pod)
    ensures !Fresh(s', pod) && s'.binds[pod].node == s.binds[pod].node
    ensures a.BindStore? && a.pod == pod ==>
      s.binds[pod].Promote? && a.key in Items(s.binds[pod]) && Items(s'.binds[pod]) == Items(s.binds[pod]) - {a.key}
    ensures !(a.BindStore? && a.pod == pod) ==> Items(s'.binds[pod]) == Items(s.binds[pod])
  {
    hide Inv, FilterMove, CycleMove, BindMove, OtherMove;
    InCycleIsUnbound(cfg, s);
    if FilterMove(cfg, s, a, s') {
      FilterKeepsBinds(cfg, s, a, s');
    } else if CycleMove(s, a, s') {
      CycleKeepsBinds(s, a, s', pod);
    } else if BindMove(s, a, s') {
      if a.BindStore? && a.pod == pod {
        StoreKeepsBind(cfg, s, s', pod, a.key);
      } else {
        BindKeepsBinds(s, a, s', pod);
      }
    } else {
      OtherKeepsBinds(s, a, s');
    }
  }

  /** What a PreBind still has to visit. */
  function Items(b: Bind): ClaimMap {
    if b.Promote? || b.PromoteIndex? || b.DropIndex? then b.items else map[]
  }

  lemma InCycleIsUnbound(cfg: Config, s: State)
    requires Inv(cfg, s)
    ensures s.cycle.Some? ==> s.cycle.value !in s.binds
  {
  }

  lemma FilterKeepsBinds(cfg: Config, s: State, a: Action, s': State)
    requires FilterMove(cfg, s, a, s')
    ensures s'.binds == s.binds && !a.BindStore?
  {
    hide Own, HeldByOther, Occupied, Choice, DistinctReqs;
  }

  lemma CycleKeepsBinds(s: State, a: Action, s': State, pod: string)
    requires CycleMove(s, a, s') && !Fresh(s, pod) && s.cycle != Some(pod)
    ensures pod in s'.binds && s'.binds[pod] == s.binds[pod] && !a.BindStore?
  {
  }

  lemma BindKeepsBinds(s: State, a: Action, s': State, pod: string)
    requires BindMove(s, a, s') && !Fresh(s, pod) && !(a.BindStore? && a.pod == pod)
    ensures !Fresh(s', pod) && s'.binds[pod].node == s.binds[pod].node && Items(s'.binds[pod]) == Items(s.binds[pod])
  {
  }

  lemma OtherKeepsBinds(s: State, a: Action, s': State)
    requires OtherMove(s, a, s')
    ensures s'.binds == s.binds && !a.BindStore?
  {
  }

  lemma StoreKeepsBind(cfg: Config, s: State, s': State, pod: string, k: Key)
    requires Inv(cfg, s) && BindMove(s, BindStore(pod, k), s')
    ensures !Fresh(s', pod) && s'.binds[pod].node == s.binds[pod].node && s.binds[pod].Promote?
    ensures k in Items(s.binds[pod]) && Items(s'.binds[pod]) == Items(s.binds[pod]) - {k}
  {
    hide Inv;
    if s.binds[pod].items[k].node == s.binds[pod].node {
      PromotionNeverFails(cfg, s, pod, k);
    }
  }

  /** Only a pod in its scheduling cycle gets new names, so no name of a listed pod appears. */
  lemma NothingNew(cfg: Config, s: State, a: Action, s': State, k: Key)
    requires Inv(cfg, s) && Step(cfg, s, a, s') && !Fresh(s, k.pod) && k in s'.store
    ensures k in s.store
  {
    hide Step, SafeStore, AllPlaced, IndexCovers, Unpromoted, RunInv, BindsInv, SweepInv;
    LifecycleStep(cfg, s, a, s', k);
    BindStays(cfg, s, a, s', k.pod);
    StepKeepsInv(cfg, s, a, s');
    if k !in s.store {
      assert false;
    }
  }

  /**
   * Over every run: once a claim is promoted, its name is never again live with a lower phase, not
   * even after a deletion. So a name handed to a container never comes back as created.
   */
  lemma {:induction false} RankNeverFalls(cfg: Config, states: seq<State>, actions: seq<Action>, i: nat, j: nat, k: Key)
    requires IsRun(cfg, states, actions) && i <= j < |states|
    requires k in states[i].store && states[i].store[k].phase.Rank() >= 2
    ensures !Fresh(states[j], k.pod)
    ensures k in states[j].store ==> states[i].store[k].phase.Rank() <= states[j].store[k].phase.Rank()
    decreases j - i
  {
    hide Step, Inv;
    if i == j {
      RunKeepsInv(cfg, states, actions, i);
      PromotedIsListed(cfg, states[i], k);
    } else {
      RankNeverFalls(cfg, states, actions, i, j - 1, k);
      RunKeepsInv(cfg, states, actions, j - 1);
      var s, a, s' := states[j - 1], actions[j - 1], states[j];
      assert Step(cfg, s, a, states[j - 1 + 1]);
      BindStays(cfg, s, a, s', k.pod);
      LifecycleStep(cfg, s, a, s', k);
      if k in s'.store {
        NothingNew(cfg, s, a, s', k);
      }
    }
  }

  /** Over every run, no claim is handed out twice: a name a device plugin has taken is never taken again. */
  lemma TakenOnce(cfg: Config, states: seq<State>, actions: seq<Action>, i: nat, j: nat, k: Key)
    requires IsRun(cfg, states, actions) && i < j < |actions| && actions[i] == DeviceTake(k)
    ensures actions[j] != DeviceTake(k)
  {
    hide Inv;
    assert Step(cfg, states[i], actions[i], states[i + 1]);
    RankNeverFalls(cfg, states, actions, i + 1, j, k);
    assert Step(cfg, states[j], actions[j], states[j + 1]);
  }

  lemma PromotedIsListed(cfg: Config, s: State, k: Key)
    requires Inv(cfg, s) && k in s.store && s.store[k].phase.Rank() >= 2
    ensures !Fresh(s, k.pod)
  {
  }

  // ---- conservation over a run ----

  /**
   * When PreBind lists a pod whose Filter placed every request, the pod holds exactly one staged
   * claim per requested slice on the chosen node, whatever ran between that Filter and this step,
   * and the list has exactly those there. Otherwise it holds nothing there, in store and index.
   */
  lemma ListedIsRequested(cfg: Config, states: seq<State>, actions: seq<Action>, n: nat, pod: string)
    requires IsRun(cfg, states, actions) && n < |actions| && actions[n] == BindList(pod)
    requires pod in states[n].binds && states[n].binds[pod].Chosen?
    ensures var s, b := states[n], states[n].binds[pod];
      && (!Satisfied(b.run) ==> Own(s.store, pod, b.node) == {} == Own(s.index, pod, b.node))
      && (Satisfied(b.run) ==> OwnsExactly(s.store, pod, b.node, b.run.reqs, Staged))
      && (Satisfied(b.run) && b.run.reqs != [] ==> (
            && pod in states[n + 1].binds && states[n + 1].binds[pod].Promote?
            && states[n + 1].binds[pod].node == b.node
            && Own(states[n + 1].binds[pod].items, pod, b.node) == Requested(pod, b.node, b.run.reqs, |b.run.reqs|)))
  {
    hide Inv;
    RunKeepsInv(cfg, states, actions, n);
    var s, s', b := states[n], states[n + 1], states[n].binds[pod];
    assert Step(cfg, s, actions[n], s');
    ListStepIs(cfg, s, s', pod);
    if Satisfied(b.run) {
      HeldIsExact(cfg, s, pod);
      if b.run.reqs != [] {
        var k := KeyOf(pod, b.node, b.run.reqs[0]);
        assert k in Own(s.store, pod, b.node) by { RequestedHas(pod, b.node, b.run.reqs, |b.run.reqs|, 0); }
        ListedOwn(s, s', pod, k);
      }
    } else {
      UnsatisfiedHoldsNothing(cfg, s, pod);
    }
  }

  lemma UnsatisfiedHoldsNothing(cfg: Config, s: State, pod: string)
    requires Inv(cfg, s) && pod in s.binds && s.binds[pod].Chosen? && !Satisfied(s.binds[pod].run)
    ensures Own(s.store, pod, s.binds[pod].node) == {} == Own(s.index, pod, s.binds[pod].node)
  {
    hide IndexCovers, Unpromoted, RunsInv, SweepInv, UnsetPending, NoOverlap, StagedExclusive, WellPlaced;
    assert BindInv(cfg, s, pod);
  }

  lemma ListedOwn(s: State, s': State, pod: string, k: Key)
    requires DoBindList(s, pod, s') && k in Own(s.index, pod, s.binds[pod].node)
    ensures pod in s'.binds && s'.binds[pod].Promote? && s'.binds[pod].node == s.binds[pod].node
    ensures Own(s'.binds[pod].items, pod, s.binds[pod].node) == Own(s.index, pod, s.binds[pod].node)
  {
    var items := map q | q in s.index && s.index[q].pod == pod :: s.index[q];
    assert k in items;
  }

  lemma ListStepIs(cfg: Config, s: State, s': State, pod: string)
    requires Step(cfg, s, BindList(pod), s')
    ensures DoBindList(s, pod, s')
  {
    hide DoBindList;
  }

  lemma HeldIsExact(cfg: Config, s: State, pod: string)
    requires Inv(cfg, s) && pod in s.binds && s.binds[pod].Chosen? && Satisfied(s.binds[pod].run)
    ensures OwnsExactly(s.store, pod, s.binds[pod].node, s.binds[pod].run.reqs, Staged)
    ensures OwnsExactly(s.index, pod, s.binds[pod].node, s.binds[pod].run.reqs, Staged)
  {
    hide IndexCovers, Unpromoted, RunsInv, SweepInv, UnsetPending, NoOverlap, StagedExclusive, WellPlaced, Held,
         OwnsExactly,
         Progress;
    assert BindInv(cfg, s, pod);
    InCycleIsUnbound(cfg, s);
    BoundIsCovered(cfg, s, pod);
    HeldOwns(s, pod, s.binds[pod].node, s.binds[pod].run);
  }

  lemma HeldOwns(s: State, pod: string, node: string, r: Run)
    requires Keyed(s.store) && Keyed(s.index) && Progress(pod, node, r) && Satisfied(r) && Held(s, pod, node, r)
    requires forall k :: k in s.store && k.pod == pod ==> k in s.index && Lags(s.index[k], s.store[k])
    ensures OwnsExactly(s.store, pod, node, r.reqs, Staged) && OwnsExactly(s.index, pod, node, r.reqs, Staged)
  {
    hide Requested;
    DoneIsRequested(pod, node, r);
    forall i | 0 <= i < |r.reqs|
      ensures r.done[i] in s.index && s.index[r.done[i]].phase == Staged
      ensures s.index[r.done[i]].profile == r.reqs[i].profile
    {
      var k := r.done[i];
      assert k in s.store && s.store[k].phase == Staged && SameSpec(s.index[k], s.store[k]);
    }
    assert Own(s.store, pod, node) == Keys(r.done);
    assert Own(s.index, pod, node) == Keys(r.done);
  }

  lemma DoneIsRequested(pod: string, node: string, r: Run)
    requires Progress(pod, node, r) && Satisfied(r)
    ensures Keys(r.done) == Requested(pod, node, r.reqs, |r.reqs|)
  {
    forall i | 0 <= i < |r.reqs|
      ensures r.done[i] in Requested(pod, node, r.reqs, |r.reqs|)
    {
      RequestedHas(pod, node, r.reqs, |r.reqs|, i);
    }
    RequestedAre(pod, node, r.reqs, |r.reqs|);
  }

  /** The name was live as a created claim of the profile in some state from n + 1 to m. */
  ghost predicate WasCreated(states: seq<State>, n: nat, m: nat, k: Key, profile: string)
    requires n <= m < |states|
  {
    exists j :: (
      && n < j <= m && k in states[j].store
      && states[j].store[k].phase == Created && states[j].store[k].profile == profile)
  }

  /** PreBind still has the name on its list, live and as asked, or has already promoted it. */
  ghost predicate Underway(states: seq<State>, n: nat, m: nat, pod: string, node: string, k: Key, profile: string)
    requires n <= m < |states|
  {
    && !Fresh(states[m], pod) && states[m].binds[pod].node == node
    && ((k in Items(states[m].binds[pod]) && k in states[m].store && states[m].store[k].profile == profile)
        || WasCreated(states, n, m, k, profile))
  }

  lemma UnderwayStep(cfg: Config, states: seq<State>, actions: seq<Action>, n: nat, m: nat, pod: string, node: string,
                     k: Key, profile: string)
    requires IsRun(cfg, states, actions) && n <= m < |actions| && k.pod == pod && k.node == node
    requires Underway(states, n, m, pod, node, k, profile)
    ensures Underway(states, n, m + 1, pod, node, k, profile)
  {
    hide Step, Inv;
    var s, a, s' := states[m], actions[m], states[m + 1];
    assert Step(cfg, s, a, s');
    RunKeepsInv(cfg, states, actions, m);
    RunKeepsInv(cfg, states, actions, m + 1);
    BindStays(cfg, s, a, s', pod);
    if WasCreated(states, n, m, k, profile) {
      assert WasCreated(states, n, m + 1, k, profile);
    } else {
      LifecycleStep(cfg, s, a, s', k);
      if a == BindStore(pod, k) {
        PromotedNow(cfg, s, s', pod, k);
        assert WasCreated(states, n, m + 1, k, profile);
      } else {
        ItemsAreLive(cfg, s', pod, k);
      }
    }
  }

  lemma ItemsAreLive(cfg: Config, s: State, pod: string, k: Key)
    requires Inv(cfg, s) && !Fresh(s, pod) && k in Items(s.binds[pod]) && k.node == s.binds[pod].node
    ensures k in s.store
  {
    hide SafeStore, AllPlaced, IndexCovers, Unpromoted, RunsInv, SweepInv, UnsetPending, Accounted;
    assert BindInv(cfg, s, pod);
  }

  lemma PromotedNow(cfg: Config, s: State, s': State, pod: string, k: Key)
    requires Inv(cfg, s) && Step(cfg, s, BindStore(pod, k), s') && !Fresh(s, pod) && k.node == s.binds[pod].node
    ensures k in s.store && k in s'.store && s'.store[k] == s.store[k].(phase := Created)
  {
    hide Inv;
    assert DoBindStore(s, pod, k, s');
    ItemsAreKeyed(cfg, s, pod, k);
    PromotionNeverFails(cfg, s, pod, k);
  }

  lemma ItemsAreKeyed(cfg: Config, s: State, pod: string, k: Key)
    requires Inv(cfg, s) && pod in s.binds && s.binds[pod].Promote? && k in s.binds[pod].items
    ensures s.binds[pod].items[k].node == k.node
  {
    hide SafeStore, WellPlaced, IndexCovers, Unpromoted, RunsInv, SweepInv, UnsetPending, Accounted;
    assert BindInv(cfg, s, pod);
  }

  /**
   * Conservation over every run, from the list of a pod to the end of its PreBind: each requested
   * slice gets its claim promoted to created on the chosen node if and only if the Filter that passed
   * there placed every request. The pod ends with no other claim anywhere; if it did not place every
   * request, with none at all.
   */
  lemma BoundGotItsRequests(cfg: Config, states: seq<State>, actions: seq<Action>, n: nat, m: nat, pod: string)
    requires IsRun(cfg, states, actions) && n < m < |states| && actions[n] == BindList(pod)
    requires pod in states[n].binds && states[n].binds[pod].Chosen? && states[n].binds[pod].run.reqs != []
    requires Satisfied(states[n].binds[pod].run) || pod in states[n + 1].binds
    requires pod in states[m].binds && states[m].binds[pod].Bound?
    ensures var node, run := states[n].binds[pod].node, states[n].binds[pod].run;
      && states[m].binds[pod].node == node
      && (Satisfied(run) <==> AllCreated(states, n, m, pod, node, run.reqs))
      && OwnAnywhere(states[m].store, pod) <=
           (if Satisfied(run) then Requested(pod, node, run.reqs, |run.reqs|) else {})
  {
    hide Step, Inv, Requested, OwnAnywhere, Own, OwnsExactly, WasCreated, AllCreated;
    ListedIsRequested(cfg, states, actions, n, pod);
    ListedBinds(cfg, states, actions, n, pod);
    OnlyRequested(cfg, states, actions, n, m, pod);
    if Satisfied(states[n].binds[pod].run) {
      SatisfiedGets(cfg, states, actions, n, m, pod);
    } else {
      UnsatisfiedGetsNone(cfg, states, actions, n, m, pod);
    }
  }

  /** Every request had its claim promoted between the two states. */
  ghost predicate AllCreated(states: seq<State>, n: nat, m: nat, pod: string, node: string, reqs: seq<Req>)
    requires n <= m < |states|
  {
    forall i :: 0 <= i < |reqs| ==> WasCreated(states, n, m, KeyOf(pod, node, reqs[i]), reqs[i].profile)
  }

  /** A pod that is still bound after the list was not empty-handed: its list has begun. */
  lemma ListedBinds(cfg: Config, states: seq<State>, actions: seq<Action>, n: nat, pod: string)
    requires IsRun(cfg, states, actions) && n < |actions| && actions[n] == BindList(pod)
    requires pod in states[n].binds && states[n].binds[pod].Chosen? && pod in states[n + 1].binds
    ensures states[n + 1].binds[pod].Promote? && states[n + 1].binds[pod].node == states[n].binds[pod].node
  {
    hide DoBindList;
    assert Step(cfg, states[n], actions[n], states[n + 1]);
    ListStepIs(cfg, states[n], states[n + 1], pod);
    assert DoBindList(states[n], pod, states[n + 1]);
    ListsOrLeaves(states[n], states[n + 1], pod);
  }

  lemma ListsOrLeaves(s: State, s': State, pod: string)
    requires DoBindList(s, pod, s') && pod in s'.binds
    ensures s'.binds[pod].Promote? && s'.binds[pod].node == s.binds[pod].node
  {
  }

  lemma SatisfiedGets(cfg: Config, states: seq<State>, actions: seq<Action>, n: nat, m: nat, pod: string)
    requires IsRun(cfg, states, actions) && n < m < |states| && actions[n] == BindList(pod)
    requires pod in states[n].binds && states[n].binds[pod].Chosen? && Satisfied(states[n].binds[pod].run)
    requires states[n].binds[pod].run.reqs != []
    requires pod in states[m].binds && states[m].binds[pod].Bound?
    ensures var node, reqs := states[n].binds[pod].node, states[n].binds[pod].run.reqs;
      && states[m].binds[pod].node == node
      && AllCreated(states, n, m, pod, node, reqs)
      && Own(states[n].store, pod, node) == Requested(pod, node, reqs, |reqs|)
  {
    hide Step, Inv, Requested;
    var node, reqs := states[n].binds[pod].node, states[n].binds[pod].run.reqs;
    ListedIsRequested(cfg, states, actions, n, pod);
    forall i | 0 <= i < |reqs|
      ensures WasCreated(states, n, m, KeyOf(pod, node, reqs[i]), reqs[i].profile)
    {
      RequestedHas(pod, node, reqs, |reqs|, i);
      UnderwayStarts(cfg, states, actions, n, pod, KeyOf(pod, node, reqs[i]), reqs[i].profile);
      UnderwayTo(cfg, states, actions, n, n + 1, m, pod, node, KeyOf(pod, node, reqs[i]), reqs[i].profile);
    }
    NothingNewSince(cfg, states, actions, n + 1, m, KeyOf(pod, node, reqs[0]));
  }

  lemma UnsatisfiedGetsNone(cfg: Config, states: seq<State>, actions: seq<Action>, n: nat, m: nat, pod: string)
    requires IsRun(cfg, states, actions) && n < m < |states| && actions[n] == BindList(pod)
    requires pod in states[n].binds && states[n].binds[pod].Chosen? && !Satisfied(states[n].binds[pod].run)
    requires states[n].binds[pod].run.reqs != []
    requires pod in states[n + 1].binds && states[n + 1].binds[pod].Promote?
    requires states[n + 1].binds[pod].node == states[n].binds[pod].node
    ensures var node, reqs := states[n].binds[pod].node, states[n].binds[pod].run.reqs;
      && Own(states[n].store, pod, node) == {}
      && (pod in states[m].binds ==> states[m].binds[pod].node == node)
      && !AllCreated(states, n, m, pod, node, reqs)
  {
    hide Step, Inv;
    var node, reqs := states[n].binds[pod].node, states[n].binds[pod].run.reqs;
    var k := KeyOf(pod, node, reqs[0]);
    ListedIsRequested(cfg, states, actions, n, pod);
    assert Step(cfg, states[n], actions[n], states[n + 1]);
    ListStepIs(cfg, states[n], states[n + 1], pod);
    RunKeepsInv(cfg, states, actions, n);
    StoreIsKeyed(cfg, states[n]);
    StoredIsOwn(states[n].store, pod, node, k);
    forall j | n < j <= m
      ensures k !in states[j].store
    {
      NothingNewSince(cfg, states, actions, n + 1, j, k);
    }
    NothingNewSince(cfg, states, actions, n + 1, m, k);
    assert !WasCreated(states, n, m, k, reqs[0].profile);
  }

  lemma UnderwayStarts(cfg: Config, states: seq<State>, actions: seq<Action>, n: nat, pod: string, k: Key,
                       profile: string)
    requires IsRun(cfg, states, actions) && n < |actions| && actions[n] == BindList(pod)
    requires pod in states[n].binds && states[n].binds[pod].Chosen? && k in states[n].store
    requires states[n].store[k].profile == profile
    requires pod in states[n + 1].binds && states[n + 1].binds[pod].Promote?
    requires states[n + 1].binds[pod].node == states[n].binds[pod].node
    requires k in Own(states[n + 1].binds[pod].items, pod, states[n].binds[pod].node)
    ensures Underway(states, n, n + 1, pod, states[n].binds[pod].node, k, profile)
  {
    assert Step(cfg, states[n], actions[n], states[n + 1]);
    ListStepIs(cfg, states[n], states[n + 1], pod);
  }

  lemma {:induction false} UnderwayTo(cfg: Config, states: seq<State>, actions: seq<Action>, n: nat, i: nat, m: nat,
                                      pod: string, node: string, k: Key, profile: string)
    requires IsRun(cfg, states, actions) && n <= i <= m < |states| && k.pod == pod && k.node == node
    requires Underway(states, n, i, pod, node, k, profile)
    ensures Underway(states, n, m, pod, node, k, profile)
    decreases m - i
  {
    hide Step, Underway;
    if i < m {
      UnderwayStep(cfg, states, actions, n, i, pod, node, k, profile);
      UnderwayTo(cfg, states, actions, n, i + 1, m, pod, node, k, profile);
    }
  }

  /** What a listed pod owns later, it owned when it was listed. */
  lemma {:induction false} NothingNewSince(cfg: Config, states: seq<State>, actions: seq<Action>, n: nat, m: nat,
                                           k: Key)
    requires IsRun(cfg, states, actions) && n <= m < |states|
    requires !Fresh(states[n], k.pod)
    ensures !Fresh(states[m], k.pod) && states[m].binds[k.pod].node == states[n].binds[k.pod].node
    ensures k in states[m].store ==> k in states[n].store
    decreases m - n
  {
    hide Step, Inv;
    if n < m {
      NothingNewSince(cfg, states, actions, n, m - 1, k);
      RunKeepsInv(cfg, states, actions, m - 1);
      assert Step(cfg, states[m - 1], actions[m - 1], states[m - 1 + 1]);
      BindStays(cfg, states[m - 1], actions[m - 1], states[m], k.pod);
      if k in states[m].store {
        NothingNew(cfg, states[m - 1], actions[m - 1], states[m], k);
      }
    }
  }

  lemma OnlyRequested(cfg: Config, states: seq<State>, actions: seq<Action>, n: nat, m: nat, pod: string)
    requires IsRun(cfg, states, actions) && n < m < |states| && actions[n] == BindList(pod)
    requires pod in states[n].binds && states[n].binds[pod].Chosen?
    requires pod in states[n + 1].binds && states[n + 1].binds[pod].Promote?
    requires states[n + 1].binds[pod].node == states[n].binds[pod].node
    requires pod in states[m].binds && states[m].binds[pod].Bound?
    ensures OwnAnywhere(states[m].store, pod) <= Own(states[n].store, pod, states[n].binds[pod].node)
  {
    hide Step, Inv;
    assert Step(cfg, states[n], actions[n], states[n + 1]);
    ListStepIs(cfg, states[n], states[n + 1], pod);
    RunKeepsInv(cfg, states, actions, m);
    RunKeepsInv(cfg, states, actions, n);
    StoreIsKeyed(cfg, states[n]);
    StoreIsKeyed(cfg, states[m]);
    forall k | k in OwnAnywhere(states[m].store, pod)
      ensures k in Own(states[n].store, pod, states[n].binds[pod].node)
    {
      NothingNewSince(cfg, states, actions, n + 1, m, k);
      BoundPodsStayOnTheirNode(cfg, states, actions, m, pod, k);
    }
  }

  lemma StoredIsOwn(m: ClaimMap, pod: string, node: string, k: Key)
    requires Keyed(m) && k.pod == pod && k.node == node
    ensures k in m ==> k in Own(m, pod, node)
  {
  }

  lemma StoreIsKeyed(cfg: Config, s: State)
    requires Inv(cfg, s)
    ensures Keyed(s.store)
  {
  }

  /** A bound pod holds claims on its node only, all of them promoted. */
  lemma BoundPodsStayOnTheirNode(cfg: Config, states: seq<State>, actions: seq<Action>, n: nat, pod: string, k: Key)
    requires IsRun(cfg, states, actions) && n < |states|
    requires pod in states[n].binds && states[n].binds[pod].Bound? && k in states[n].store && k.pod == pod
    ensures k.node == states[n].binds[pod].node && states[n].store[k].phase.Rank() >= 2
  {
    RunKeepsInv(cfg, states, actions, n);
    assert BindInv(cfg, states[n], pod);
  }

  /** In every run the live claims of a profile on a node stay within the advertised device count. */
  lemma NeverOverCapacity(cfg: Config, states: seq<State>, actions: seq<Action>, n: nat, node: string, profile: string)
    requires IsRun(cfg, states, actions) && n < |states| && node in cfg
    requires profile in cfg[node].table
    requires forall i :: 0 <= i < |cfg[node].table[profile]| ==> cfg[node].table[profile][i].size > 0
    ensures var m := states[n].store;
      |set k | k in m && m[k].node == node && m[k].profile == profile| <= Advertised(cfg[node], profile)
  {
    RunKeepsInv(cfg, states, actions, n);
    ClaimsWithinCapacity(cfg, states[n].store, node, profile);
  }
}
