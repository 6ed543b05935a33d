/** Each step of a Filter call keeps the protocol invariant. */
module FilterSteps {
  import opened Claims
  import opened SlotSearch
  import opened Greedy
  import opened SchedulerSpec
  import opened Protocol
  import opened ProtocolInvariant

  /** What the invariant says before a step of the cycle's Filter call on a node. */
  ghost predicate Before(cfg: Config, s: State, pod: string, node: string) {
    && s.cycle == Some(pod) && pod !in s.binds
    && SafeStore(cfg, s.store) && AllPlaced(cfg, s.index) && IndexCovers(s)
    && OwnOk(s, pod, node) && (node in s.runs ==> RunInv(cfg, s, pod, node))
  }

  /** What a step of that Filter call must establish. */
  ghost predicate After(cfg: Config, s: State, s': State, pod: string, node: string) {
    && OnlyRun(s, s', pod, node)
    && SafeStore(cfg, s'.store) && AllPlaced(cfg, s'.index)
    && OwnOk(s', pod, node) && RunInv(cfg, s', pod, node)
  }

  lemma InvBefore(cfg: Config, s: State, pod: string, node: string)
    requires Inv(cfg, s) && s.cycle == Some(pod)
    ensures Before(cfg, s, pod, node)
  {
  }

  lemma Deleting(cfg: Config, m: ClaimMap, k: Key)
    requires SafeStore(cfg, m)
    ensures SafeStore(cfg, m - {k})
  {
  }

  lemma DeletingIndexed(cfg: Config, m: ClaimMap, k: Key)
    requires AllPlaced(cfg, m)
    ensures AllPlaced(cfg, m - {k})
  {
  }

  /** Steps that change only the local variables and keep the same claims in hand. */
  lemma LocalAfter(cfg: Config, s: State, s': State, pod: string, node: string)
    requires Before(cfg, s, pod, node) && node in s.runs && node in s'.runs
    requires s' == Moved(s, node, s'.runs[node])
    requires RunInv(cfg, s', pod, node)
    requires forall k :: k in s.store && k.pod == pod && k.node == node && Pending(s, k) ==> Pending(s', k)
    ensures After(cfg, s, s', pod, node)
  {
    hide SafeStore, AllPlaced, RunInv;
    forall k | k in s.store && k.pod == pod && k.node == node
      ensures CoveredAt(s', k)
    {
      assert CoveredAt(s, k);
    }
  }

  // ---- purge ----

  lemma FilterBeginAfter(cfg: Config, s: State, s': State, pod: string, node: string, reqs: seq<Req>)
    requires Before(cfg, s, pod, node) && DoFilterBegin(cfg, s, node, reqs, s')
    ensures After(cfg, s, s', pod, node)
  {
    hide SafeStore, IndexCovers, OwnOk, RunInv, After, OnlyRun, WellPlaced;
    BeginIsListed(s, pod, node);
    BeginRun(cfg, s, s', pod, node, reqs);
    MakeAfter(cfg, s, s', pod, node);
  }

  /** Outside a Filter call every stored claim of the pod on the node is indexed. */
  lemma BeginIsListed(s: State, pod: string, node: string)
    requires IndexCovers(s) && (node in s.runs ==> s.runs[node].pc.AtDone?)
    ensures forall k :: k in s.store && k.node == node ==>
      !Pending(s, k) && k in s.index && Lags(s.index[k], s.store[k])
  {
  }

  lemma BeginRun(cfg: Config, s: State, s': State, pod: string, node: string, reqs: seq<Req>)
    requires Keyed(s.index) && OwnOk(s, pod, node) && s.cycle == Some(pod)
    requires forall k :: k in s.store && k.node == node ==>
      !Pending(s, k) && k in s.index && Lags(s.index[k], s.store[k])
    requires DoFilterBegin(cfg, s, node, reqs, s')
    ensures OnlyRun(s, s', pod, node) && RunInv(cfg, s', pod, node) && OwnOk(s', pod, node)
  {
    hide Lags;
  }

  lemma PurgeStoreAfter(cfg: Config, s: State, s': State, pod: string, node: string, k: Key)
    requires Before(cfg, s, pod, node) && DoPurgeStore(s, node, k, s')
    ensures After(cfg, s, s', pod, node)
  {
    hide SafeStore, AllPlaced, IndexCovers, OwnOk, RunInv, After, OnlyRun;
    Deleting(cfg, s.store, k);
    PurgeStoreRun(cfg, s, s', pod, node, k);
    PurgeStoreOwn(cfg, s, s', pod, node, k);
    MakeAfter(cfg, s, s', pod, node);
  }

  lemma PurgeStoreRun(cfg: Config, s: State, s': State, pod: string, node: string, k: Key)
    requires s.cycle == Some(pod) && RunInv(cfg, s, pod, node) && DoPurgeStore(s, node, k, s')
    ensures OnlyRun(s, s', pod, node) && RunInv(cfg, s', pod, node)
  {
  }

  lemma PurgeStoreOwn(cfg: Config, s: State, s': State, pod: string, node: string, k: Key)
    requires s.cycle == Some(pod) && RunInv(cfg, s, pod, node) && OwnOk(s, pod, node) && DoPurgeStore(s, node, k, s')
    ensures OwnOk(s', pod, node)
  {
  }

  lemma PurgeIndexedAfter(cfg: Config, s: State, s': State, pod: string, node: string)
    requires Before(cfg, s, pod, node) && DoPurgeIndexed(s, node, s')
    ensures After(cfg, s, s', pod, node)
  {
    hide SafeStore, AllPlaced, IndexCovers, OwnOk, RunInv, After, OnlyRun;
    DeletingIndexed(cfg, s.index, s.runs[node].pc.key);
    PurgeIndexedRun(cfg, s, s', pod, node);
    PurgeIndexedOwn(cfg, s, s', pod, node);
    MakeAfter(cfg, s, s', pod, node);
  }

  lemma PurgeIndexedRun(cfg: Config, s: State, s': State, pod: string, node: string)
    requires s.cycle == Some(pod) && RunInv(cfg, s, pod, node) && DoPurgeIndexed(s, node, s')
    ensures OnlyRun(s, s', pod, node) && RunInv(cfg, s', pod, node)
  {
  }

  lemma PurgeIndexedOwn(cfg: Config, s: State, s': State, pod: string, node: string)
    requires s.cycle == Some(pod) && RunInv(cfg, s, pod, node) && OwnOk(s, pod, node) && DoPurgeIndexed(s, node, s')
    ensures OwnOk(s', pod, node)
  {
  }

  lemma PurgeEndAfter(cfg: Config, s: State, s': State, pod: string, node: string)
    requires Before(cfg, s, pod, node) && DoPurgeEnd(s, node, s')
    ensures After(cfg, s, s', pod, node)
  {
    hide SafeStore, AllPlaced, OwnOk, IndexCovers, After;
    LocalAfter(cfg, s, s', pod, node);
  }

  // ---- reading the GPUs ----

  /** A slot table read from the index marks every live claim of other pods, and none is staged. */
  lemma ReadGuards(cfg: Config, s: State, pod: string, node: string, g: string)
    requires Keyed(s.store) && Keyed(s.index) && IndexCovers(s) && s.cycle == Some(pod)
    requires Mine(s.store, pod, node, {}) && !HeldByOther(s.index, node, g, pod)
    ensures Guarded(s.store, pod, node, map[g := Occupied(s.index, node, g, pod)], {})
  {
    var slots := Occupied(s.index, node, g, pod);
    forall k | k in s.store && k.node == node && s.store[k].gpu == g
      ensures Marked(slots, s.store[k]) && s.store[k].phase.Rank() >= 2
    {
      var c := s.store[k];
      assert k.pod != pod && !Pending(s, k) && CoveredAt(s, k);
      var d := s.index[k];
      assert d.(phase := Unset) == c.(phase := Unset);
      assert d.node == node && d.gpu == g && d.pod != pod;
      forall i | 0 <= i < SLOTS && Covers(c, i)
        ensures slots[i] == 1
      {
        assert Covers(d, i);
      }
      assert d.phase != Staged;
    }
  }

  lemma ReadGpuAfter(cfg: Config, s: State, s': State, pod: string, node: string)
    requires Before(cfg, s, pod, node) && DoReadGpu(cfg, s, node, s')
    ensures After(cfg, s, s', pod, node)
  {
    hide OwnOk, After, NoOverlap, StagedExclusive, WellPlaced, Occupied, HeldByOther;
    var r := s.runs[node];
    var g := cfg[node].gpus[r.pc.gpu];
    if !HeldByOther(s.index, node, g, pod) {
      ReadGuards(cfg, s, pod, node, g);
      GuardedAdd(s.store, pod, node, r.occ, g, Occupied(s.index, node, g, pod));
    }
    LocalAfter(cfg, s, s', pod, node);
  }

  lemma GuardedAdd(m: ClaimMap, pod: string, node: string, occ: Tables, g: string, slots: Slots)
    requires Guarded(m, pod, node, occ, {}) && Guarded(m, pod, node, map[g := slots], {})
    ensures Guarded(m, pod, node, occ[g := slots], {})
  {
  }

  lemma ReadEndAfter(cfg: Config, s: State, s': State, pod: string, node: string)
    requires Before(cfg, s, pod, node) && DoReadEnd(cfg, s, node, s')
    ensures After(cfg, s, s', pod, node)
  {
    hide SafeStore, AllPlaced, OwnOk, IndexCovers, After, Guarded;
    assert Keys([]) == {};
    LocalAfter(cfg, s, s', pod, node);
  }

  // ---- placing ----

  /** Create never meets an existing name: the purge removed the pod's old claims, and ordinals differ. */
  lemma NameIsFree(cfg: Config, s: State, node: string)
    requires Placing(cfg, s, node) && RunInv(cfg, s, s.cycle.value, node)
    ensures NextKey(s, node) !in s.store
  {
    var pod, r := s.cycle.value, s.runs[node];
    forall i | 0 <= i < |r.done|
      ensures r.done[i] != NextKey(s, node)
    {
      assert r.done[i] == KeyOf(pod, node, r.reqs[i]);
    }
  }

  /** A new claim at a free start of a usable GPU overlaps nothing and shares its GPU's staging with nobody. */
  lemma PlacingIsSafe(cfg: Config, m: ClaimMap, k: Key, c: Claim, occ: Tables)
    requires SafeStore(cfg, m) && k !in m && WellPlaced(cfg, c) && c.pod == k.pod && c.node == k.node
    requires c.phase == Unset
    requires c.gpu in occ && Fits(occ[c.gpu], c.start, c.size) && Guarded(m, k.pod, k.node, occ, {})
    ensures SafeStore(cfg, m[k := c])
  {
    forall q | q in m && m[q].node == c.node && m[q].gpu == c.gpu
      ensures Apart(m[q], c) && (m[q].phase.Rank() <= 1 ==> m[q].pod == c.pod)
    {
      FreeIsApart(occ[c.gpu], c, m[q]);
    }
  }

  lemma WantIsPlaced(cfg: Config, s: State, node: string, pod: string)
    requires Placing(cfg, s, node) && Choice(cfg, s, node).Some?
    ensures var r, spot := s.runs[node], Choice(cfg, s, node).value;
      var want := ClaimOf(cfg[node], pod, node, r.reqs[|r.done|], spot).(phase := Unset);
      WellPlaced(cfg, want) && want.gpu in r.occ && Fits(r.occ[want.gpu], want.start, want.size)
  {
    var r := s.runs[node];
    ChooseFits(cfg[node], r.occ, r.reqs[|r.done|].profile, 0);
  }

  lemma CreateAfter(cfg: Config, s: State, s': State, pod: string, node: string)
    requires Before(cfg, s, pod, node) && DoCreate(cfg, s, node, s')
    ensures After(cfg, s, s', pod, node)
  {
    hide SafeStore, AllPlaced, WellPlaced, IndexCovers, OwnOk, After, Fits;
    NameIsFree(cfg, s, node);
    WantIsPlaced(cfg, s, node, pod);
    PlacingIsSafe(cfg, s.store, NextKey(s, node), s'.runs[node].pc.want, s.runs[node].occ);
    CreateRun(cfg, s, s', pod, node);
    CreateOwn(cfg, s, s', pod, node);
    assert After(cfg, s, s', pod, node) by { MakeAfter(cfg, s, s', pod, node); }
  }

  lemma MakeAfter(cfg: Config, s: State, s': State, pod: string, node: string)
    requires OnlyRun(s, s', pod, node) && SafeStore(cfg, s'.store) && AllPlaced(cfg, s'.index)
    requires OwnOk(s', pod, node) && RunInv(cfg, s', pod, node)
    ensures After(cfg, s, s', pod, node)
  {
  }

  lemma CreateRun(cfg: Config, s: State, s': State, pod: string, node: string)
    requires s.cycle == Some(pod) && RunInv(cfg, s, pod, node)
    requires DoCreate(cfg, s, node, s') && NextKey(s, node) !in s.store
    requires s'.runs[node].pc.want.gpu in s.runs[node].occ
    ensures OnlyRun(s, s', pod, node) && RunInv(cfg, s', pod, node)
  {
    hide Marked, Choice;
    assert NextKey(s, node) !in s.runs[node].done;
  }

  lemma CreateOwn(cfg: Config, s: State, s': State, pod: string, node: string)
    requires s.cycle == Some(pod) && RunInv(cfg, s, pod, node) && OwnOk(s, pod, node)
    requires DoCreate(cfg, s, node, s') && NextKey(s, node) !in s.store
    ensures OwnOk(s', pod, node)
  {
    hide Guarded, Choice;
    forall k | k in s'.store && k.pod == pod && k.node == node && k != NextKey(s, node)
      ensures CoveredAt(s', k) && s'.store[k].phase == Staged
    {
      assert CoveredAt(s, k) && !Pending(s, k) && k in s.runs[node].done;
    }
  }

  lemma StageAfter(cfg: Config, s: State, s': State, pod: string, node: string)
    requires Before(cfg, s, pod, node) && DoStage(s, node, s')
    ensures After(cfg, s, s', pod, node)
  {
    hide SafeStore, AllPlaced, IndexCovers, OwnOk, RunInv, After, OnlyRun;
    StageRun(cfg, s, s', pod, node);
    StageAdvances(cfg, s, s', pod, node);
    AdvancingIsSafe(cfg, s.store, s'.store);
    StageOwn(cfg, s, s', pod, node);
    MakeAfter(cfg, s, s', pod, node);
  }

  lemma StageAdvances(cfg: Config, s: State, s': State, pod: string, node: string)
    requires RunInv(cfg, s, pod, node) && DoStage(s, node, s')
    ensures Advances(s.store, s'.store)
  {
    hide Guarded, Mine, AllStaged, AsAsked, Progress, DistinctReqs;
  }

  lemma StageRun(cfg: Config, s: State, s': State, pod: string, node: string)
    requires s.cycle == Some(pod) && RunInv(cfg, s, pod, node) && DoStage(s, node, s')
    ensures OnlyRun(s, s', pod, node) && RunInv(cfg, s', pod, node)
  {
    hide Guarded;
    var r, k0 := s.runs[node], s.runs[node].pc.key;
    GuardedFrame(s.store, s'.store, pod, node, r.occ, {k0});
    assert k0 !in r.done;
  }

  lemma StageOwn(cfg: Config, s: State, s': State, pod: string, node: string)
    requires s.cycle == Some(pod) && RunInv(cfg, s, pod, node) && OwnOk(s, pod, node) && DoStage(s, node, s')
    ensures OwnOk(s', pod, node)
  {
    hide Guarded;
    forall k | k in s'.store && k.pod == pod && k.node == node && k != s.runs[node].pc.key
      ensures CoveredAt(s', k) && s'.store[k].phase == Staged
    {
      assert CoveredAt(s, k) && !Pending(s, k) && k in s.runs[node].done;
    }
  }

  lemma PublishAfter(cfg: Config, s: State, s': State, pod: string, node: string)
    requires Before(cfg, s, pod, node) && DoPublish(s, node, s')
    ensures After(cfg, s, s', pod, node)
  {
    hide SafeStore, AllPlaced, IndexCovers, OwnOk, RunInv, After, OnlyRun;
    PublishIndex(cfg, s, s', pod, node);
    PublishRun(cfg, s, s', pod, node);
    PublishOwn(cfg, s, s', pod, node);
    MakeAfter(cfg, s, s', pod, node);
  }

  lemma PublishIndex(cfg: Config, s: State, s': State, pod: string, node: string)
    requires RunInv(cfg, s, pod, node) && SafeStore(cfg, s.store) && AllPlaced(cfg, s.index) && DoPublish(s, node, s')
    ensures AllPlaced(cfg, s'.index)
  {
    hide Guarded, WellPlaced, Mine, AllStaged, NoOverlap, StagedExclusive;
    assert s.runs[node].pc.got == s.store[s.runs[node].pc.key];
  }

  lemma PublishRun(cfg: Config, s: State, s': State, pod: string, node: string)
    requires s.cycle == Some(pod) && RunInv(cfg, s, pod, node) && DoPublish(s, node, s')
    ensures OnlyRun(s, s', pod, node) && RunInv(cfg, s', pod, node)
  {
    hide Guarded;
    var r, k0 := s.runs[node], s.runs[node].pc.key;
    assert Keys(r.done + [k0]) == Keys(r.done) + {k0};
    MarkingGuards(s.store, pod, node, r.occ, k0, r.pc.got);
  }

  lemma PublishOwn(cfg: Config, s: State, s': State, pod: string, node: string)
    requires s.cycle == Some(pod) && RunInv(cfg, s, pod, node) && OwnOk(s, pod, node) && DoPublish(s, node, s')
    ensures OwnOk(s', pod, node)
  {
    hide Guarded;
    var k0 := s.runs[node].pc.key;
    forall k | k in s'.store && k.pod == pod && k.node == node
      ensures CoveredAt(s', k) && s'.store[k].phase == Staged
    {
      assert CoveredAt(s, k);
      assert k != k0 ==> !Pending(s, k) && k in s.runs[node].done;
    }
  }

  lemma MarkingGuards(m: ClaimMap, pod: string, node: string, occ: Tables, k0: Key, got: Claim)
    requires Guarded(m, pod, node, occ, {k0}) && k0 in m && m[k0] == got && got.gpu in occ && k0.pod == pod
    ensures Guarded(m, pod, node, Mark(occ, Spot(got.gpu, got.start), got.size), {})
  {
  }

  lemma PlaceEndAfter(cfg: Config, s: State, s': State, pod: string, node: string)
    requires Before(cfg, s, pod, node) && DoPlaceEnd(s, node, s')
    ensures After(cfg, s, s', pod, node)
  {
    hide SafeStore, AllPlaced, OwnOk, IndexCovers, After, Guarded;
    LocalAfter(cfg, s, s', pod, node);
  }

  // ---- rolling back ----

  lemma RefusedAfter(cfg: Config, s: State, s': State, pod: string, node: string)
    requires Before(cfg, s, pod, node)
    requires DoCreateRefused(cfg, s, node, s') || DoStageRefused(s, node, s') || DoNoRoom(cfg, s, node, s')
    ensures After(cfg, s, s', pod, node)
  {
    hide SafeStore, AllPlaced, OwnOk, IndexCovers, After, Guarded, Choice;
    var r := s.runs[node];
    if r.pc.AtStage? {
      assert Keys(r.done + [r.pc.key]) == Keys(r.done) + {r.pc.key};
    }
    LocalAfter(cfg, s, s', pod, node);
  }

  lemma HeadAndTail(todo: seq<Key>)
    requires todo != []
    ensures Keys(todo) == Keys(todo[1..]) + {todo[0]}
  {
  }

  lemma UndoStoreAfter(cfg: Config, s: State, s': State, pod: string, node: string)
    requires Before(cfg, s, pod, node) && DoUndoStore(s, node, s')
    ensures After(cfg, s, s', pod, node)
  {
    hide SafeStore, AllPlaced, IndexCovers, OwnOk, RunInv, After, OnlyRun;
    Deleting(cfg, s.store, s.runs[node].pc.todo[0]);
    UndoStoreRun(cfg, s, s', pod, node);
    UndoStoreOwn(cfg, s, s', pod, node);
    MakeAfter(cfg, s, s', pod, node);
  }

  lemma UndoStoreRun(cfg: Config, s: State, s': State, pod: string, node: string)
    requires s.cycle == Some(pod) && RunInv(cfg, s, pod, node) && DoUndoStore(s, node, s')
    ensures OnlyRun(s, s', pod, node) && RunInv(cfg, s', pod, node)
  {
    hide Guarded, CoveredAt;
    HeadAndTail(s.runs[node].pc.todo);
  }

  lemma UndoStoreOwn(cfg: Config, s: State, s': State, pod: string, node: string)
    requires s.cycle == Some(pod) && RunInv(cfg, s, pod, node) && OwnOk(s, pod, node) && DoUndoStore(s, node, s')
    ensures OwnOk(s', pod, node)
  {
  }

  lemma UndoEndAfter(cfg: Config, s: State, s': State, pod: string, node: string)
    requires Before(cfg, s, pod, node) && DoUndoEnd(s, node, s')
    ensures After(cfg, s, s', pod, node)
  {
    hide SafeStore, AllPlaced, OwnOk, IndexCovers, After;
    LocalAfter(cfg, s, s', pod, node);
  }

  lemma AbortStoreAfter(cfg: Config, s: State, s': State, pod: string, node: string)
    requires Before(cfg, s, pod, node) && DoAbortStore(s, node, s')
    ensures After(cfg, s, s', pod, node)
  {
    hide SafeStore, AllPlaced, IndexCovers, OwnOk, RunInv, After, OnlyRun;
    Deleting(cfg, s.store, s.runs[node].pc.todo[0]);
    AbortStoreRun(cfg, s, s', pod, node);
    AbortStoreOwn(cfg, s, s', pod, node);
    MakeAfter(cfg, s, s', pod, node);
  }

  lemma AbortStoreRun(cfg: Config, s: State, s': State, pod: string, node: string)
    requires s.cycle == Some(pod) && RunInv(cfg, s, pod, node) && DoAbortStore(s, node, s')
    ensures OnlyRun(s, s', pod, node) && RunInv(cfg, s', pod, node)
  {
    hide Guarded, CoveredAt;
    HeadAndTail(s.runs[node].pc.todo);
  }

  lemma AbortStoreOwn(cfg: Config, s: State, s': State, pod: string, node: string)
    requires s.cycle == Some(pod) && RunInv(cfg, s, pod, node) && OwnOk(s, pod, node) && DoAbortStore(s, node, s')
    ensures OwnOk(s', pod, node)
  {
    hide Guarded, Lags;
    HeadAndTail(s.runs[node].pc.todo);
    forall k | k in s'.store && k.pod == pod && k.node == node
      ensures Pending(s', k)
    {
      assert k in Keys(s.runs[node].pc.todo[1..]);
    }
  }

  lemma AbortIndexedAfter(cfg: Config, s: State, s': State, pod: string, node: string)
    requires Before(cfg, s, pod, node) && DoAbortIndexed(s, node, s')
    ensures After(cfg, s, s', pod, node)
  {
    hide SafeStore, AllPlaced, IndexCovers, OwnOk, RunInv, After, OnlyRun;
    DeletingIndexed(cfg, s.index, s.runs[node].pc.key);
    AbortIndexedRun(cfg, s, s', pod, node);
    AbortIndexedOwn(cfg, s, s', pod, node);
    MakeAfter(cfg, s, s', pod, node);
  }

  lemma AbortIndexedRun(cfg: Config, s: State, s': State, pod: string, node: string)
    requires s.cycle == Some(pod) && RunInv(cfg, s, pod, node) && DoAbortIndexed(s, node, s')
    ensures OnlyRun(s, s', pod, node) && RunInv(cfg, s', pod, node)
  {
    hide Guarded, CoveredAt;
  }

  lemma AbortIndexedOwn(cfg: Config, s: State, s': State, pod: string, node: string)
    requires s.cycle == Some(pod) && RunInv(cfg, s, pod, node) && OwnOk(s, pod, node) && DoAbortIndexed(s, node, s')
    ensures OwnOk(s', pod, node)
  {
  }

  lemma AbortEndAfter(cfg: Config, s: State, s': State, pod: string, node: string)
    requires Before(cfg, s, pod, node) && DoAbortEnd(s, node, s')
    ensures After(cfg, s, s', pod, node)
  {
    hide SafeStore, AllPlaced, OwnOk, IndexCovers, After;
    LocalAfter(cfg, s, s', pod, node);
  }

  /** Every step of a Filter call keeps the invariant. */
  lemma FilterMoveKeeps(cfg: Config, s: State, a: Action, s': State)
    requires Inv(cfg, s) && FilterMove(cfg, s, a, s')
    ensures Inv(cfg, s')
  {
    hide Inv, Before, After, DoFilterBegin, DoPurgeStore, DoPurgeIndexed, DoPurgeEnd, DoReadGpu, DoReadEnd, DoCreate,
         DoCreateRefused, DoStage, DoStageRefused, DoPublish, DoNoRoom, DoUndoStore, DoUndoEnd, DoAbortStore,
         DoAbortIndexed, DoAbortEnd, DoPlaceEnd;
    FilterMoveIsInCycle(cfg, s, a, s');
    var pod, node := s.cycle.value, a.node;
    InvBefore(cfg, s, pod, node);
    match a {
      case FilterBegin(_, reqs) => FilterBeginAfter(cfg, s, s', pod, node, reqs);
      case PurgeStore(_, k) => PurgeStoreAfter(cfg, s, s', pod, node, k);
      case PurgeIndexed(_) => PurgeIndexedAfter(cfg, s, s', pod, node);
      case PurgeEnd(_) => PurgeEndAfter(cfg, s, s', pod, node);
      case ReadGpu(_) => ReadGpuAfter(cfg, s, s', pod, node);
      case ReadEnd(_) => ReadEndAfter(cfg, s, s', pod, node);
      case Create(_) => CreateAfter(cfg, s, s', pod, node);
      case CreateRefused(_) => RefusedAfter(cfg, s, s', pod, node);
      case Stage(_) => StageAfter(cfg, s, s', pod, node);
      case StageRefused(_) => RefusedAfter(cfg, s, s', pod, node);
      case Publish(_) => PublishAfter(cfg, s, s', pod, node);
      case NoRoom(_) => RefusedAfter(cfg, s, s', pod, node);
      case UndoStore(_) => UndoStoreAfter(cfg, s, s', pod, node);
      case UndoEnd(_) => UndoEndAfter(cfg, s, s', pod, node);
      case AbortStore(_) => AbortStoreAfter(cfg, s, s', pod, node);
      case AbortIndexed(_) => AbortIndexedAfter(cfg, s, s', pod, node);
      case AbortEnd(_) => AbortEndAfter(cfg, s, s', pod, node);
      case PlaceEnd(_) => PlaceEndAfter(cfg, s, s', pod, node);
      case _ =>
    }
    AfterKeeps(cfg, s, s', pod, node);
  }

  lemma FilterMoveIsInCycle(cfg: Config, s: State, a: Action, s': State)
    requires FilterMove(cfg, s, a, s')
    ensures s.cycle.Some?
  {
  }

  lemma AfterKeeps(cfg: Config, s: State, s': State, pod: string, node: string)
    requires Inv(cfg, s) && After(cfg, s, s', pod, node)
    ensures Inv(cfg, s')
  {
    hide Inv, OnlyRun, SafeStore, AllPlaced, OwnOk, RunInv;
    OnlyRunKeepsInv(cfg, s, s', pod, node);
  }
}
