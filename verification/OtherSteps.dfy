/** The steps outside a Filter call keep the protocol invariant. */
module OtherSteps {
  import opened Claims
  import opened Protocol
  import opened ProtocolInvariant

  // ---- cleanup, devices, watchers, informer ----

  /** The step touches only promoted claims in the store, and the index only as the store allows. */
  ghost predicate Outside(s: State, s': State) {
    && s'.cycle == s.cycle && s'.runs == s.runs && s'.binds == s.binds
    && Advances(s.store, s'.store)
    && (forall k :: k in s.store && s.store[k].phase.Rank() <= 1 ==> SameAtKey(s.store, s'.store, k))
    && (forall k :: k in s'.index ==> k in s.index || k in s.store)
  }

  lemma OutsideKeepsInv(cfg: Config, s: State, s': State)
    requires Inv(cfg, s) && Outside(s, s')
    requires AllPlaced(cfg, s'.index) && IndexCovers(s') && Unpromoted(s') && SweepInv(s')
    ensures Inv(cfg, s')
  {
    hide SafeStore, AllPlaced, IndexCovers, Unpromoted, SweepInv, UnsetPending, RunInv, BindInv, Outside;
    OutsideStore(cfg, s, s');
    if s.cycle.Some? {
      forall n | n in s'.runs
        ensures RunInv(cfg, s', s.cycle.value, n)
      {
        OutsideLeavesRun(s, s', s.cycle.value, n);
        RunFrame(cfg, s, s', s.cycle.value, n);
      }
    }
    forall p | p in s'.binds
      ensures BindInv(cfg, s', p)
    {
      OutsideLeavesBind(s, s', p);
      ChosenIsUnpromoted(s, p);
      BindFrame(cfg, s, s', p);
    }
  }

  lemma OutsideStore(cfg: Config, s: State, s': State)
    requires Outside(s, s') && SafeStore(cfg, s.store) && UnsetPending(s)
    ensures SafeStore(cfg, s'.store) && UnsetPending(s')
    ensures s'.runs == s.runs && s'.cycle == s.cycle && s'.binds == s.binds
  {
    hide SafeStore;
    AdvancingIsSafe(cfg, s.store, s'.store);
    forall k | k in s'.store && s'.store[k].phase == Unset
      ensures Pending(s', k)
    {
      assert s.store[k].phase == Unset;
      assert Pending(s, k);
    }
  }

  lemma OutsideLeavesRun(s: State, s': State, pod: string, n: string)
    requires Outside(s, s') && Unpromoted(s) && s.cycle == Some(pod) && pod !in s.binds && n in s.runs
    ensures LeavesRun(s, s', pod, n)
  {
  }

  lemma OutsideLeavesBind(s: State, s': State, p: string)
    requires Outside(s, s') && p in s.binds
    ensures LeavesBind(s, s', p)
  {
  }

  lemma SameIndexCovers(s: State, s': State)
    requires IndexCovers(s) && s'.index == s.index && s'.cycle == s.cycle && s'.runs == s.runs
    requires Advances(s.store, s'.store)
    ensures IndexCovers(s')
  {
  }

  lemma SameIndexUnpromoted(s: State, s': State)
    requires Unpromoted(s) && s'.index == s.index && s'.binds == s.binds
    requires Advances(s.store, s'.store)
    requires forall k :: k in s'.store && s'.store[k] != s.store[k] ==> s.store[k].phase.Rank() >= 2
    ensures Unpromoted(s')
  {
  }

  lemma DeviceKeeps(cfg: Config, s: State, s': State, k: Key, phase: Phase)
    requires Inv(cfg, s) && k in s.store && s.store[k].phase.Rank() >= 2 && phase.Rank() > s.store[k].phase.Rank()
    requires s' == s.(store := SetPhase(s.store, k, phase))
    ensures Inv(cfg, s')
  {
    hide SafeStore, AllPlaced, IndexCovers, Unpromoted, UnsetPending, RunsInv, BindsInv;
    assert Outside(s, s');
    SameIndexCovers(s, s');
    SameIndexUnpromoted(s, s');
    OutsideKeepsInv(cfg, s, s');
  }

  lemma DropKeeps(cfg: Config, s: State, s': State, k: Key)
    requires Inv(cfg, s) && k in s.store && s.store[k].phase.Rank() >= 2
    requires s'.store == s.store - {k} && s' == s.(store := s'.store, doomed := s'.doomed, swept := s'.swept)
    requires SweepInv(s')
    ensures Inv(cfg, s')
  {
    hide SafeStore, AllPlaced, IndexCovers, Unpromoted, UnsetPending, RunsInv, BindsInv, SweepInv;
    assert Outside(s, s');
    SameIndexCovers(s, s');
    SameIndexUnpromoted(s, s');
    OutsideKeepsInv(cfg, s, s');
  }

  lemma IndexOnlyKeeps(cfg: Config, s: State, s': State)
    requires Inv(cfg, s) && s' == s.(index := s'.index, doomed := s'.doomed, swept := s'.swept)
    requires forall k :: k in s'.index ==> k in s.index || k in s.store
    requires AllPlaced(cfg, s'.index) && IndexCovers(s') && Unpromoted(s') && SweepInv(s')
    ensures Inv(cfg, s')
  {
    hide SafeStore, AllPlaced, IndexCovers, Unpromoted, UnsetPending, RunsInv, BindsInv, SweepInv;
    assert Outside(s, s');
    OutsideKeepsInv(cfg, s, s');
  }

  /** An index entry marked created belongs to a claim that PreBind has promoted, or to none. */
  lemma CreatedIsPromoted(cfg: Config, s: State, k: Key)
    requires Inv(cfg, s) && k in s.index && s.index[k].phase == Created
    ensures !Fresh(s, k.pod) && (k in s.store ==> s.store[k].phase.Rank() >= 2)
  {
  }

  lemma CleanupListKeeps(cfg: Config, s: State, s': State, pod: string)
    requires Inv(cfg, s) && DoCleanupList(s, pod, s')
    ensures Inv(cfg, s')
  {
    hide SafeStore, AllPlaced, RunsInv, BindsInv, SweepInv, IndexCovers, UnsetPending, Unpromoted;
    ListedSweep(cfg, s, s', pod);
    SameIndexCovers(s, s');
    SameIndexUnpromoted(s, s');
    IndexOnlyKeeps(cfg, s, s');
  }

  lemma ListedSweep(cfg: Config, s: State, s': State, pod: string)
    requires Inv(cfg, s) && DoCleanupList(s, pod, s')
    ensures SweepInv(s')
  {
    hide Inv;
    assert SweepInv(s) by { InvSweep(cfg, s); }
    forall k | k in s'.doomed
      ensures !Fresh(s', k.pod) && (k in s'.store ==> s'.store[k].phase.Rank() >= 2)
    {
      if k !in s.doomed { CreatedIsPromoted(cfg, s, k); }
    }
  }

  lemma InvSweep(cfg: Config, s: State)
    requires Inv(cfg, s)
    ensures SweepInv(s)
  {
  }

  lemma SyncKeeps(cfg: Config, s: State, s': State, k: Key, phase: Phase)
    requires Inv(cfg, s) && DoSync(s, k, phase, s')
    ensures Inv(cfg, s')
  {
    hide RunsInv, BindsInv, SafeStore, AllPlaced, IndexCovers, Unpromoted, SweepInv, UnsetPending;
    SyncSweep(s, s', k, phase);
    SyncCovers(cfg, s, s', k, phase);
    SyncPlaced(cfg, s, s', k, phase);
    IndexOnlyKeeps(cfg, s, s');
  }

  lemma SyncSweep(s: State, s': State, k: Key, phase: Phase)
    requires SweepInv(s) && Unpromoted(s) && DoSync(s, k, phase, s')
    ensures SweepInv(s') && Unpromoted(s')
  {
  }

  lemma SyncPlaced(cfg: Config, s: State, s': State, k: Key, phase: Phase)
    requires SafeStore(cfg, s.store) && AllPlaced(cfg, s.index) && DoSync(s, k, phase, s')
    ensures AllPlaced(cfg, s'.index)
  {
  }

  lemma SyncCovers(cfg: Config, s: State, s': State, k: Key, phase: Phase)
    requires IndexCovers(s) && UnsetPending(s) && DoSync(s, k, phase, s')
    ensures IndexCovers(s')
  {
  }

  lemma CleanupIndexedKeeps(cfg: Config, s: State, s': State, k: Key)
    requires Inv(cfg, s) && DoCleanupIndexed(s, k, s')
    ensures Inv(cfg, s')
  {
    hide RunsInv, BindsInv, NoOverlap, StagedExclusive, WellPlaced;
    assert k !in s.store;
    assert SweepInv(s');
    assert IndexCovers(s') by {
      forall q | q in s'.store
        ensures CoveredAt(s', q)
      {
        assert CoveredAt(s, q) && Pending(s', q) == Pending(s, q);
      }
    }
    assert Unpromoted(s') by { assert forall p :: Fresh(s', p) == Fresh(s, p); }
    IndexOnlyKeeps(cfg, s, s');
  }

  /** Deleting a promoted claim, or dropping names from the cleanup list, keeps the sweep sets in order. */
  lemma SweepAfterDrop(s: State, s': State, k: Key)
    requires SweepInv(s) && s'.binds == s.binds && s'.doomed <= s.doomed && s'.swept <= s.swept + {k}
    requires s'.store == s.store - {k} && (k in s'.swept && k !in s.swept ==> !Fresh(s, k.pod))
    ensures SweepInv(s')
  {
  }

  lemma CleanupStoreKeeps(cfg: Config, s: State, s': State, k: Key)
    requires Inv(cfg, s) && DoCleanupStore(s, k, s')
    ensures Inv(cfg, s')
  {
    hide RunsInv, BindsInv, SafeStore, AllPlaced, IndexCovers, Unpromoted, UnsetPending, SweepInv;
    DoomedIsPromoted(s, k);
    if k in s.store {
      SweepAfterDrop(s, s', k);
      DropKeeps(cfg, s, s', k);
    } else {
      assert s.store - {k} == s.store;
      SweepAfterDrop(s, s', k);
      SameIndexCovers(s, s');
      SameIndexUnpromoted(s, s');
      IndexOnlyKeeps(cfg, s, s');
    }
  }

  lemma DoomedIsPromoted(s: State, k: Key)
    requires SweepInv(s) && k in s.doomed
    ensures !Fresh(s, k.pod) && (k in s.store ==> s.store[k].phase.Rank() >= 2)
  {
  }

  lemma ReleaseKeeps(cfg: Config, s: State, s': State, k: Key)
    requires Inv(cfg, s) && DoRelease(s, k, s')
    ensures Inv(cfg, s')
  {
    hide RunsInv, BindsInv, SafeStore, AllPlaced, IndexCovers, Unpromoted, UnsetPending, SweepInv;
    SweepAfterDrop(s, s', k);
    DropKeeps(cfg, s, s', k);
  }

  lemma OtherMoveKeeps(cfg: Config, s: State, a: Action, s': State)
    requires Inv(cfg, s) && OtherMove(s, a, s')
    ensures Inv(cfg, s')
  {
    hide Inv;
    match a
    case CleanupList(pod) => CleanupListKeeps(cfg, s, s', pod);
    case CleanupStore(k) => CleanupStoreKeeps(cfg, s, s', k);
    case CleanupIndexed(k) => CleanupIndexedKeeps(cfg, s, s', k);
    case DeviceTake(k) => DeviceKeeps(cfg, s, s', k, Processing);
    case DeviceUse(k) => DeviceKeeps(cfg, s, s', k, InUse);
    case Release(k) => ReleaseKeeps(cfg, s, s', k);
    case Sync(k, phase) => SyncKeeps(cfg, s, s', k, phase);
    case _ =>
  }

  // ---- scheduling cycles ----

  lemma NoCycleNoPending(s: State, s': State)
    requires s'.store == s.store && s'.index == s.index && IndexCovers(s) && UnsetPending(s)
    requires forall k :: !Pending(s, k)
    ensures IndexCovers(s') && UnsetPending(s')
  {
  }

  lemma SameBind(cfg: Config, s: State, s': State, p: string)
    requires BindInv(cfg, s, p) && s'.store == s.store && s'.index == s.index && p in s'.binds
    requires s'.binds[p] == s.binds[p]
    ensures BindInv(cfg, s', p)
  {
  }

  lemma CycleMoveKeeps(cfg: Config, s: State, a: Action, s': State)
    requires Inv(cfg, s) && CycleMove(s, a, s')
    ensures Inv(cfg, s')
  {
    hide SafeStore, AllPlaced, IndexCovers, BindInv, RunInv, UnsetPending, SweepInv, Unpromoted;
    if a.Requeue? {
      RequeueKeeps(cfg, s, s', a.pod);
      return;
    }
    CycleIndex(cfg, s, a, s');
    CycleFresh(s, a, s');
    forall p | p in s'.binds
      ensures BindInv(cfg, s', p)
    {
      if p in s.binds && s'.binds[p] == s.binds[p] {
        SameBind(cfg, s, s', p);
      } else {
        AssumedBind(cfg, s, a, s');
      }
    }
  }

  /** A chosen pod sent back to the queue keeps its staged claims; nothing else notices. */
  lemma RequeueKeeps(cfg: Config, s: State, s': State, pod: string)
    requires Inv(cfg, s) && CycleMove(s, Requeue(pod), s')
    ensures Inv(cfg, s')
  {
    hide SafeStore, AllPlaced, IndexCovers, BindInv, RunInv, UnsetPending, SweepInv, Unpromoted;
    CycleFresh(s, Requeue(pod), s');
    SamePending(s, s');
    forall p | p in s'.binds
      ensures BindInv(cfg, s', p)
    {
      SameBind(cfg, s, s', p);
    }
    if s.cycle.Some? {
      forall n | n in s'.runs
        ensures RunInv(cfg, s', s.cycle.value, n)
      {
        SameRun(cfg, s, s', s.cycle.value, n);
      }
    }
  }

  lemma SamePending(s: State, s': State)
    requires s' == s.(binds := s'.binds) && IndexCovers(s) && UnsetPending(s)
    ensures IndexCovers(s') && UnsetPending(s')
  {
  }

  lemma SameRun(cfg: Config, s: State, s': State, pod: string, node: string)
    requires s' == s.(binds := s'.binds) && RunInv(cfg, s, pod, node)
    ensures RunInv(cfg, s', pod, node)
  {
  }

  lemma CycleIndex(cfg: Config, s: State, a: Action, s': State)
    requires CycleMove(s, a, s') && !a.Requeue? && RunsInv(cfg, s) && IndexCovers(s) && UnsetPending(s)
    ensures IndexCovers(s') && UnsetPending(s')
  {
    hide IndexCovers, UnsetPending, RunInv;
    assert forall k :: !Pending(s, k);
    NoCycleNoPending(s, s');
  }

  lemma CycleFresh(s: State, a: Action, s': State)
    requires CycleMove(s, a, s') && Unpromoted(s) && SweepInv(s) && (s.cycle.Some? ==> s.cycle.value !in s.binds)
    ensures Unpromoted(s') && SweepInv(s')
  {
    assert forall p :: Fresh(s', p) == Fresh(s, p);
  }

  lemma AssumedBind(cfg: Config, s: State, a: Action, s': State)
    requires a.Assume? && CycleMove(s, a, s') && RunsInv(cfg, s)
    ensures BindInv(cfg, s', s.cycle.value)
  {
  }

  // ---- PreBind ----

  /** The step touches nothing but one binding cycle and its pod's claims. */
  ghost predicate OnlyBind(s: State, s': State, pod: string) {
    && s'.cycle == s.cycle && s'.runs == s.runs && s'.doomed == s.doomed && s'.swept == s.swept
    && pod in s.binds && s'.binds.Keys + {pod} == s.binds.Keys
    && (forall p :: p in s'.binds && p != pod ==> s'.binds[p] == s.binds[p])
    && Advances(s.store, s'.store)
    && (forall k: Key :: k.pod != pod ==> SameAtKey(s.store, s'.store, k) && SameAtKey(s.index, s'.index, k))
  }

  lemma OnlyBindKeepsInv(cfg: Config, s: State, s': State, pod: string)
    requires Inv(cfg, s) && OnlyBind(s, s', pod)
    requires AllPlaced(cfg, s'.index) && (pod in s'.binds ==> BindInv(cfg, s', pod))
    requires IndexCovers(s') && Unpromoted(s') && SweepInv(s')
    ensures Inv(cfg, s')
  {
    hide SafeStore, AllPlaced, IndexCovers, Unpromoted, SweepInv, UnsetPending, RunInv, BindInv;
    OnlyBindStore(cfg, s, s', pod);
    if s.cycle.Some? {
      forall n | n in s'.runs
        ensures RunInv(cfg, s', s.cycle.value, n)
      {
        assert LeavesRun(s, s', s.cycle.value, n);
        RunFrame(cfg, s, s', s.cycle.value, n);
      }
    }
    forall p | p in s'.binds && p != pod
      ensures BindInv(cfg, s', p)
    {
      assert LeavesBind(s, s', p);
      ChosenIsUnpromoted(s, p);
      BindFrame(cfg, s, s', p);
    }
  }

  lemma OnlyBindStore(cfg: Config, s: State, s': State, pod: string)
    requires OnlyBind(s, s', pod) && SafeStore(cfg, s.store) && UnsetPending(s)
    ensures SafeStore(cfg, s'.store) && UnsetPending(s')
  {
    hide SafeStore;
    AdvancingIsSafe(cfg, s.store, s'.store);
    forall k | k in s'.store && s'.store[k].phase == Unset
      ensures Pending(s', k)
    {
      assert s.store[k].phase == Unset && Pending(s, k);
    }
  }

  /** The bound pod's claims after a step of its PreBind. */
  ghost predicate BoundOk(s': State, pod: string) {
    && (forall k :: k in s'.store && k.pod == pod ==> k in s'.index && Lags(s'.index[k], s'.store[k]))
    && (Fresh(s', pod) ==> forall k: Key :: k.pod == pod ==> k !in s'.store && k !in s'.index)
  }

  /** Covered, unpromoted and sweep facts need checking for the bound pod's claims only. */
  lemma OnlyBindElsewhere(s: State, s': State, pod: string)
    requires OnlyBind(s, s', pod) && IndexCovers(s) && Unpromoted(s) && SweepInv(s) && s.cycle != Some(pod)
    requires BoundOk(s', pod) && (!Fresh(s, pod) ==> !Fresh(s', pod))
    ensures IndexCovers(s') && Unpromoted(s') && SweepInv(s')
  {
    OnlyBindCovers(s, s', pod);
    OnlyBindFresh(s, s', pod);
  }

  lemma OnlyBindCovers(s: State, s': State, pod: string)
    requires OnlyBind(s, s', pod) && IndexCovers(s) && BoundOk(s', pod)
    ensures IndexCovers(s')
  {
  }

  lemma OnlyBindFresh(s: State, s': State, pod: string)
    requires OnlyBind(s, s', pod) && Unpromoted(s) && SweepInv(s)
    requires BoundOk(s', pod) && (!Fresh(s, pod) ==> !Fresh(s', pod))
    ensures Unpromoted(s') && SweepInv(s')
  {
    hide Lags;
    assert forall p :: p != pod ==> Fresh(s', p) == Fresh(s, p);
    assert SweepInv(s') by { hide BoundOk, Unpromoted; }
  }

  /** Outside the scheduling cycle of its pod, every stored claim is indexed with its placement. */
  lemma BoundIsCovered(cfg: Config, s: State, pod: string)
    requires IndexCovers(s) && s.cycle != Some(pod)
    ensures forall k :: k in s.store && k.pod == pod ==> k in s.index && Lags(s.index[k], s.store[k])
  {
  }

  lemma BindListKeeps(cfg: Config, s: State, s': State, pod: string)
    requires Inv(cfg, s) && DoBindList(s, pod, s')
    ensures Inv(cfg, s')
  {
    hide SafeStore, AllPlaced, RunInv, UnsetPending, IndexCovers, Unpromoted, SweepInv, BindInv, OnlyBind, BoundOk;
    assert s.cycle != Some(pod);
    BoundIsCovered(cfg, s, pod);
    ListIsBound(cfg, s, s', pod);
    if pod in s'.binds {
      ListedItems(cfg, s, s', pod, s'.binds[pod].items);
    }
    OnlyBindElsewhere(s, s', pod);
    OnlyBindKeepsInv(cfg, s, s', pod);
  }

  lemma ListIsBound(cfg: Config, s: State, s': State, pod: string)
    requires AllPlaced(cfg, s.index) && DoBindList(s, pod, s')
    requires forall k :: k in s.store && k.pod == pod ==> k in s.index && Lags(s.index[k], s.store[k])
    ensures OnlyBind(s, s', pod) && BoundOk(s', pod)
  {
    hide Lags, WellPlaced;
    var items := map k | k in s.index && s.index[k].pod == pod :: s.index[k];
    assert items == map[] ==> forall k :: k in s.index && s.index[k].pod == pod ==> k in items;
  }

  lemma ListedItems(cfg: Config, s: State, s': State, pod: string, items: ClaimMap)
    requires AllPlaced(cfg, s.index) && Unpromoted(s) && UnsetPending(s) && BindInv(cfg, s, pod) && s.cycle != Some(pod)
    requires forall k :: k in s.store && k.pod == pod ==> k in s.index && Lags(s.index[k], s.store[k])
    requires s.binds[pod].Chosen? && items == map k | k in s.index && s.index[k].pod == pod :: s.index[k]
    requires s' == s.(binds := s.binds[pod := Promote(s.binds[pod].node, items)])
    ensures BindInv(cfg, s', pod)
  {
    hide WellPlaced;
    assert Fresh(s, pod);
    forall k | k in s.store && k.pod == pod
      ensures s.store[k].phase == Staged
    {
      assert !Pending(s, k);
    }
  }

  /** PreBind never meets a missing claim on the chosen node. */
  lemma PromotionNeverFails(cfg: Config, s: State, pod: string, k: Key)
    requires Inv(cfg, s) && pod in s.binds && s.binds[pod].Promote? && k in s.binds[pod].items
    requires s.binds[pod].items[k].node == s.binds[pod].node
    ensures s.binds[pod].items[k].phase != Created && k in s.store && s.store[k].phase == Staged
  {
    hide SafeStore, RunInv, UnsetPending, IndexCovers, Unpromoted, SweepInv;
    assert BindInv(cfg, s, pod);
  }

  lemma BindStoreKeeps(cfg: Config, s: State, s': State, pod: string, k: Key)
    requires Inv(cfg, s) && DoBindStore(s, pod, k, s')
    ensures Inv(cfg, s')
  {
    hide SafeStore, AllPlaced, RunInv, UnsetPending, IndexCovers, Unpromoted, SweepInv, BindInv, OnlyBind, BoundOk;
    var n, items := s.binds[pod].node, s.binds[pod].items;
    BoundIsCovered(cfg, s, pod);
    if items[k].node == n {
      PromotionNeverFails(cfg, s, pod, k);
      StoredIsPlaced(cfg, s, k);
      PromoteBind(cfg, s, s', pod, k);
      PromoteIsBound(s, s', pod, k);
    } else {
      DropBind(cfg, s, s', pod, k);
      DropIsBound(s, s', pod, k);
    }
    OnlyBindElsewhere(s, s', pod);
    OnlyBindKeepsInv(cfg, s, s', pod);
  }

  lemma StoredIsPlaced(cfg: Config, s: State, k: Key)
    requires SafeStore(cfg, s.store) && k in s.store
    ensures AllPlaced(cfg, map[k := s.store[k].(phase := Created)])
  {
  }

  predicate Promotes(s: State, pod: string, k: Key) {
    && pod in s.binds && s.binds[pod].Promote? && k in s.binds[pod].items
    && s.binds[pod].items[k].node == s.binds[pod].node && s.binds[pod].items[k].phase != Created
    && k in s.store && s.store[k].phase == Staged
  }

  lemma PromoteBind(cfg: Config, s: State, s': State, pod: string, k: Key)
    requires BindInv(cfg, s, pod) && Promotes(s, pod, k) && AllPlaced(cfg, map[k := s.store[k].(phase := Created)])
    requires DoBindStore(s, pod, k, s')
    ensures BindInv(cfg, s', pod) && k.pod == pod
  {
    hide WellPlaced;
    assert Lags(s'.store[k], s'.store[k]);
  }

  lemma PromoteIsBound(s: State, s': State, pod: string, k: Key)
    requires Promotes(s, pod, k) && k.pod == pod
    requires forall q :: q in s.store && q.pod == pod ==> q in s.index && Lags(s.index[q], s.store[q])
    requires DoBindStore(s, pod, k, s')
    ensures OnlyBind(s, s', pod) && BoundOk(s', pod)
  {
    assert SameSpec(s'.store[k], s.store[k]);
  }

  lemma DropBind(cfg: Config, s: State, s': State, pod: string, k: Key)
    requires BindInv(cfg, s, pod) && DoBindStore(s, pod, k, s')
    requires s.binds[pod].items[k].node != s.binds[pod].node
    ensures BindInv(cfg, s', pod) && k.pod == pod
  {
  }

  lemma DropIsBound(s: State, s': State, pod: string, k: Key)
    requires DoBindStore(s, pod, k, s') && s.binds[pod].items[k].node != s.binds[pod].node && k.pod == pod
    requires forall q :: q in s.store && q.pod == pod ==> q in s.index && Lags(s.index[q], s.store[q])
    ensures OnlyBind(s, s', pod) && BoundOk(s', pod)
  {
    hide Lags;
  }

  lemma BindIndexedKeeps(cfg: Config, s: State, s': State, pod: string)
    requires Inv(cfg, s) && DoBindIndexed(s, pod, s')
    ensures Inv(cfg, s')
  {
    hide SafeStore, AllPlaced, RunInv, UnsetPending, IndexCovers, Unpromoted, SweepInv, BindInv, OnlyBind, BoundOk;
    BoundIsCovered(cfg, s, pod);
    IndexedBind(cfg, s, s', pod);
    IndexedIsBound(cfg, s, s', pod);
    OnlyBindElsewhere(s, s', pod);
    OnlyBindKeepsInv(cfg, s, s', pod);
  }

  lemma IndexedBind(cfg: Config, s: State, s': State, pod: string)
    requires BindInv(cfg, s, pod) && AllPlaced(cfg, s.index) && DoBindIndexed(s, pod, s')
    ensures BindInv(cfg, s', pod) && AllPlaced(cfg, s'.index)
  {
    hide WellPlaced, Lags;
    var b := s.binds[pod];
    if b.PromoteIndex? {
      var one := map[b.key := b.got];
      assert b.key in one && one[b.key] == b.got;
    }
  }

  lemma IndexedIsBound(cfg: Config, s: State, s': State, pod: string)
    requires BindInv(cfg, s, pod) && DoBindIndexed(s, pod, s')
    requires forall q :: q in s.store && q.pod == pod ==> q in s.index && Lags(s.index[q], s.store[q])
    ensures OnlyBind(s, s', pod) && BoundOk(s', pod)
  {
    hide Lags, ItemsInv, AllPlaced;
  }

  lemma BindEndKeeps(cfg: Config, s: State, s': State, pod: string)
    requires Inv(cfg, s) && DoBindEnd(s, pod, s')
    ensures Inv(cfg, s')
  {
    hide SafeStore, AllPlaced, RunInv, UnsetPending, IndexCovers, Unpromoted, SweepInv, Lags;
    BoundIsCovered(cfg, s, pod);
    assert OnlyBind(s, s', pod) && BoundOk(s', pod);
    OnlyBindElsewhere(s, s', pod);
    OnlyBindKeepsInv(cfg, s, s', pod);
  }

  lemma BindMoveKeeps(cfg: Config, s: State, a: Action, s': State)
    requires Inv(cfg, s) && BindMove(s, a, s')
    ensures Inv(cfg, s')
  {
    hide Inv;
    match a
    case BindList(pod) => BindListKeeps(cfg, s, s', pod);
    case BindStore(pod, k) => BindStoreKeeps(cfg, s, s', pod, k);
    case BindIndexed(pod) => BindIndexedKeeps(cfg, s, s', pod);
    case BindEnd(pod) => BindEndKeeps(cfg, s, s', pod);
    case _ =>
  }
}
