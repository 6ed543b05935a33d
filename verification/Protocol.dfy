/**
 * The claim protocol as a state machine. Scheduling cycles are serial, but the Filters of one cycle
 * run in parallel over nodes, and every API call and every index access of a Filter is a step of its
 * own, interleaved with the PreBinds of earlier pods, the pod-deletion cleanup, the device plugins,
 * the CDI watchers and the informer.
 */
module Protocol {
  import opened Claims
  import opened SlotSearch
  import opened Greedy
  import opened SchedulerSpec

  /** The discovered resources of every node; they do not change during a run. */
  type Config = map<string, Resources>

  /** Where one Filter call stands. */
  datatype Pc =
    | AtPurge                                             // next: delete an old claim from the store
    | AtPurgeIndex(key: Key)                              // ... and from the index
    | AtRead(gpu: nat)                                    // next: list this GPU's claims
    | AtPlace                                             // next: place a request
    | AtStage(key: Key, want: Claim)                      // created; next: set the status
    | AtPublish(key: Key, want: Claim, got: Claim)        // staged; next: add to the index
    | AtUndo(todo: seq<Key>)                              // no room: delete from the store only
    | AtAbort(todo: seq<Key>, passed: bool)               // API failure: delete from the store ...
    | AtAbortIndex(key: Key, todo: seq<Key>, passed: bool)// ... and from the index
    | AtDone(passed: bool)

  /** The local variables of one Filter call. */
  datatype Run = Run(pc: Pc, items: set<Key>, reqs: seq<Req>, occ: Tables, done: seq<Key>)

  /** Where the binding cycle of a pod stands; `run` is the Filter call that passed on the chosen node. */
  datatype Bind =
    | Chosen(node: string, run: Run)
    | Promote(node: string, items: ClaimMap)
    | PromoteIndex(node: string, items: ClaimMap, key: Key, got: Claim)
    | DropIndex(node: string, items: ClaimMap, key: Key)
    | Bound(node: string)

  datatype State = State(
    store: ClaimMap,             // AllocationClaims in the API server
    index: ClaimMap,             // the scheduler's informer cache
    cycle: Option<string>,       // the pod in its scheduling cycle
    runs: map<string, Run>,      // its Filter calls, by node
    binds: map<string, Bind>,    // binding cycles, by pod
    doomed: set<Key>,            // listed by a pod-deletion cleanup
    swept: set<Key>)             // ... and deleted from the store, not yet from the index

  datatype Action =
    | StartCycle(pod: string)
    | FilterBegin(node: string, reqs: seq<Req>)
    | PurgeStore(node: string, key: Key)
    | PurgeIndexed(node: string)
    | PurgeEnd(node: string)
    | ReadGpu(node: string)
    | ReadEnd(node: string)
    | Create(node: string)
    | CreateRefused(node: string)
    | Stage(node: string)
    | StageRefused(node: string)
    | Publish(node: string)
    | NoRoom(node: string)
    | UndoStore(node: string)
    | UndoEnd(node: string)
    | AbortStore(node: string)
    | AbortIndexed(node: string)
    | AbortEnd(node: string)
    | PlaceEnd(node: string)
    | GiveUp
    | Assume(node: string)
    | Requeue(pod: string)
    | BindList(pod: string)
    | BindStore(pod: string, key: Key)
    | BindIndexed(pod: string)
    | BindEnd(pod: string)
    | CleanupList(pod: string)
    | CleanupStore(key: Key)
    | CleanupIndexed(key: Key)
    | DeviceTake(key: Key)
    | DeviceUse(key: Key)
    | Release(key: Key)
    | Sync(key: Key, phase: Phase)

  predicate Init(s: State) {
    s == State(map[], map[], None, map[], map[], {}, {})
  }

  function SetPhase(m: ClaimMap, k: Key, phase: Phase): ClaimMap
    requires k in m
  {
    m[k := m[k].(phase := phase)]
  }

  /** The state with one Filter call moved on. */
  function Moved(s: State, node: string, r: Run): State {
    s.(runs := s.runs[node := r])
  }

  predicate Running(s: State, node: string) {
    s.cycle.Some? && node in s.runs
  }

  /** The request a Filter call is about to place. */
  function NextKey(s: State, node: string): Key
    requires Running(s, node) && |s.runs[node].done| < |s.runs[node].reqs|
  {
    KeyOf(s.cycle.value, node, s.runs[node].reqs[|s.runs[node].done|])
  }

  function Choice(cfg: Config, s: State, node: string): Option<Spot>
    requires Running(s, node) && |s.runs[node].done| < |s.runs[node].reqs| && node in cfg
  {
    Choose(cfg[node], s.runs[node].occ, s.runs[node].reqs[|s.runs[node].done|].profile)
  }

  predicate Placing(cfg: Config, s: State, node: string) {
    node in cfg && Running(s, node) && s.runs[node].pc.AtPlace? && |s.runs[node].done| < |s.runs[node].reqs|
  }

  // ---- the steps of one Filter call ----

  ghost predicate DoFilterBegin(cfg: Config, s: State, node: string, reqs: seq<Req>, s': State) {
    // Filter may run again on a node in the same cycle, once the call before it has ended.
    && s.cycle.Some? && node in cfg && (node in s.runs ==> s.runs[node].pc.AtDone?) && DistinctReqs(reqs)
    && s' == Moved(s, node, Run(AtPurge, Own(s.index, s.cycle.value, node), reqs, map[], []))
  }

  ghost predicate DoPurgeStore(s: State, node: string, k: Key, s': State) {
    && Running(s, node) && s.runs[node].pc.AtPurge? && k in s.runs[node].items
    && var r := s.runs[node];
    s' == Moved(s, node, r.(pc := AtPurgeIndex(k), items := r.items - {k})).(store := s.store - {k})
  }

  ghost predicate DoPurgeIndexed(s: State, node: string, s': State) {
    && Running(s, node) && s.runs[node].pc.AtPurgeIndex?
    && var r := s.runs[node];
    s' == Moved(s, node, r.(pc := AtPurge)).(index := s.index - {r.pc.key})
  }

  ghost predicate DoPurgeEnd(s: State, node: string, s': State) {
    && Running(s, node) && s.runs[node].pc.AtPurge? && s.runs[node].items == {}
    && var r := s.runs[node];
    s' == Moved(s, node, r.(pc := if r.reqs == [] then AtDone(true) else AtRead(0)))
  }

  ghost predicate DoReadGpu(cfg: Config, s: State, node: string, s': State) {
    && node in cfg && Running(s, node) && s.runs[node].pc.AtRead? && s.runs[node].pc.gpu < |cfg[node].gpus|
    && var r := s.runs[node];
    var g := cfg[node].gpus[r.pc.gpu];
    var occ := if HeldByOther(s.index, node, g, s.cycle.value) then r.occ
               else r.occ[g := Occupied(s.index, node, g, s.cycle.value)];
    s' == Moved(s, node, r.(pc := AtRead(r.pc.gpu + 1), occ := occ))
  }

  ghost predicate DoReadEnd(cfg: Config, s: State, node: string, s': State) {
    && node in cfg && Running(s, node) && s.runs[node].pc.AtRead? && s.runs[node].pc.gpu == |cfg[node].gpus|
    && s' == Moved(s, node, s.runs[node].(pc := AtPlace))
  }

  ghost predicate DoCreate(cfg: Config, s: State, node: string, s': State) {
    // An existing name is fetched instead of created; NameIsFree shows that this never happens.
    && Placing(cfg, s, node) && Choice(cfg, s, node).Some?
    && var r, k := s.runs[node], NextKey(s, node);
    var want := ClaimOf(cfg[node], s.cycle.value, node, r.reqs[|r.done|], Choice(cfg, s, node).value).(phase := Unset);
    s' == Moved(s, node, r.(pc := AtStage(k, want))).(store := if k in s.store then s.store else s.store[k := want])
  }

  ghost predicate DoCreateRefused(cfg: Config, s: State, node: string, s': State) {
    && Placing(cfg, s, node) && Choice(cfg, s, node).Some?
    && var r := s.runs[node];
    s' == Moved(s, node, r.(pc := AtAbort(r.done, r.done != [])))
  }

  ghost predicate DoStage(s: State, node: string, s': State) {
    && Running(s, node) && s.runs[node].pc.AtStage? && s.runs[node].pc.key in s.store
    && var r := s.runs[node];
    var store := SetPhase(s.store, r.pc.key, Staged);
    s' == Moved(s, node, r.(pc := AtPublish(r.pc.key, r.pc.want, store[r.pc.key]))).(store := store)
  }

  ghost predicate DoStageRefused(s: State, node: string, s': State) {
    && Running(s, node) && s.runs[node].pc.AtStage?
    && var r := s.runs[node];
    s' == Moved(s, node, r.(pc := AtAbort(r.done + [r.pc.key], r.done != [])))
  }

  ghost predicate DoPublish(s: State, node: string, s': State) {
    && Running(s, node) && s.runs[node].pc.AtPublish? && s.runs[node].pc.want.gpu in s.runs[node].occ
    && var r := s.runs[node];
    var occ := Mark(r.occ, Spot(r.pc.want.gpu, r.pc.want.start), r.pc.want.size);
    s' == Moved(s, node, r.(pc := AtPlace, occ := occ, done := r.done + [r.pc.key]))
          .(index := s.index[r.pc.key := r.pc.got])
  }

  ghost predicate DoNoRoom(cfg: Config, s: State, node: string, s': State) {
    && Placing(cfg, s, node) && Choice(cfg, s, node).None?
    && s' == Moved(s, node, s.runs[node].(pc := AtUndo(s.runs[node].done)))
  }

  ghost predicate DoUndoStore(s: State, node: string, s': State) {
    && Running(s, node) && s.runs[node].pc.AtUndo? && s.runs[node].pc.todo != []
    && var r := s.runs[node];
    s' == Moved(s, node, r.(pc := AtUndo(r.pc.todo[1..]))).(store := s.store - {r.pc.todo[0]})
  }

  ghost predicate DoUndoEnd(s: State, node: string, s': State) {
    && Running(s, node) && s.runs[node].pc.AtUndo? && s.runs[node].pc.todo == []
    && s' == Moved(s, node, s.runs[node].(pc := AtDone(false)))
  }

  ghost predicate DoAbortStore(s: State, node: string, s': State) {
    && Running(s, node) && s.runs[node].pc.AtAbort? && s.runs[node].pc.todo != []
    && var r := s.runs[node];
    s' == Moved(s, node, r.(pc := AtAbortIndex(r.pc.todo[0], r.pc.todo[1..], r.pc.passed)))
          .(store := s.store - {r.pc.todo[0]})
  }

  ghost predicate DoAbortIndexed(s: State, node: string, s': State) {
    && Running(s, node) && s.runs[node].pc.AtAbortIndex?
    && var r := s.runs[node];
    s' == Moved(s, node, r.(pc := AtAbort(r.pc.todo, r.pc.passed))).(index := s.index - {r.pc.key})
  }

  ghost predicate DoAbortEnd(s: State, node: string, s': State) {
    && Running(s, node) && s.runs[node].pc.AtAbort? && s.runs[node].pc.todo == []
    && s' == Moved(s, node, s.runs[node].(pc := AtDone(s.runs[node].pc.passed)))
  }

  ghost predicate DoPlaceEnd(s: State, node: string, s': State) {
    && Running(s, node) && s.runs[node].pc.AtPlace? && |s.runs[node].done| == |s.runs[node].reqs|
    && s' == Moved(s, node, s.runs[node].(pc := AtDone(true)))
  }

  /** The steps of one Filter call. */
  ghost predicate FilterMove(cfg: Config, s: State, a: Action, s': State) {
    match a
    case FilterBegin(node, reqs) => DoFilterBegin(cfg, s, node, reqs, s')
    case PurgeStore(node, k) => DoPurgeStore(s, node, k, s')
    case PurgeIndexed(node) => DoPurgeIndexed(s, node, s')
    case PurgeEnd(node) => DoPurgeEnd(s, node, s')
    case ReadGpu(node) => DoReadGpu(cfg, s, node, s')
    case ReadEnd(node) => DoReadEnd(cfg, s, node, s')
    case Create(node) => DoCreate(cfg, s, node, s')
    case CreateRefused(node) => DoCreateRefused(cfg, s, node, s')
    case Stage(node) => DoStage(s, node, s')
    case StageRefused(node) => DoStageRefused(s, node, s')
    case Publish(node) => DoPublish(s, node, s')
    case NoRoom(node) => DoNoRoom(cfg, s, node, s')
    case UndoStore(node) => DoUndoStore(s, node, s')
    case UndoEnd(node) => DoUndoEnd(s, node, s')
    case AbortStore(node) => DoAbortStore(s, node, s')
    case AbortIndexed(node) => DoAbortIndexed(s, node, s')
    case AbortEnd(node) => DoAbortEnd(s, node, s')
    case PlaceEnd(node) => DoPlaceEnd(s, node, s')
    case _ => false
  }

  /**
   * The scheduling queue: one cycle at a time, ended without a node or by assuming one. A pod whose
   * node is refused before PreBind goes back to the queue with its staged claims; a bound pod does not.
   */
  ghost predicate CycleMove(s: State, a: Action, s': State) {
    match a
    case StartCycle(pod) =>
      && s.cycle.None? && pod !in s.binds
      && s' == s.(cycle := Some(pod), runs := map[])
    case GiveUp =>
      && s.cycle.Some? && (forall n :: n in s.runs ==> s.runs[n].pc.AtDone?)
      && s' == s.(cycle := None, runs := map[])
    case Assume(node) =>
      && s.cycle.Some? && (forall n :: n in s.runs ==> s.runs[n].pc.AtDone?)
      && node in s.runs && s.runs[node].pc == AtDone(true)
      && s' == s.(cycle := None, runs := map[], binds := s.binds[s.cycle.value := Chosen(node, s.runs[node])])
    case Requeue(pod) =>
      && pod in s.binds && s.binds[pod].Chosen?
      && s' == s.(binds := s.binds - {pod})
    case _ => false
  }

  ghost predicate DoBindList(s: State, pod: string, s': State) {
    && pod in s.binds && s.binds[pod].Chosen?
    && var items := map k | k in s.index && s.index[k].pod == pod :: s.index[k];
    s' == s.(binds := if items == map[] then s.binds - {pod} else s.binds[pod := Promote(s.binds[pod].node, items)])
  }

  ghost predicate DoBindStore(s: State, pod: string, k: Key, s': State) {
    // A missing claim makes PreBind fail; PromotionNeverFails shows that this never happens.
    && pod in s.binds && s.binds[pod].Promote? && k in s.binds[pod].items
    && var n, items := s.binds[pod].node, s.binds[pod].items;
    if items[k].node != n then
      s' == s.(store := s.store - {k}, binds := s.binds[pod := DropIndex(n, items - {k}, k)])
    else if items[k].phase == Created then
      s' == s.(binds := s.binds[pod := Promote(n, items - {k})])
    else if k !in s.store then
      s' == s.(binds := s.binds - {pod})
    else
      var store := SetPhase(s.store, k, Created);
      s' == s.(store := store, binds := s.binds[pod := PromoteIndex(n, items - {k}, k, store[k])])
  }

  ghost predicate DoBindIndexed(s: State, pod: string, s': State) {
    && pod in s.binds && (s.binds[pod].PromoteIndex? || s.binds[pod].DropIndex?)
    && var b := s.binds[pod];
    s' == s.(index := if b.PromoteIndex? then s.index[b.key := b.got] else s.index - {b.key},
             binds := s.binds[pod := Promote(b.node, b.items)])
  }

  ghost predicate DoBindEnd(s: State, pod: string, s': State) {
    && pod in s.binds && s.binds[pod].Promote? && s.binds[pod].items == map[]
    && s' == s.(binds := s.binds[pod := Bound(s.binds[pod].node)])
  }

  /** The steps of PreBind. Its listing is a snapshot of the index. */
  ghost predicate BindMove(s: State, a: Action, s': State) {
    match a
    case BindList(pod) => DoBindList(s, pod, s')
    case BindStore(pod, k) => DoBindStore(s, pod, k, s')
    case BindIndexed(pod) => DoBindIndexed(s, pod, s')
    case BindEnd(pod) => DoBindEnd(s, pod, s')
    case _ => false
  }

  ghost predicate DoCleanupList(s: State, pod: string, s': State) {
    s' == s.(doomed := s.doomed + set k | k in s.index && s.index[k].pod == pod && s.index[k].phase == Created)
  }

  ghost predicate DoCleanupStore(s: State, k: Key, s': State) {
    && k in s.doomed
    && s' == if k in s.store then s.(doomed := s.doomed - {k}, store := s.store - {k}, swept := s.swept + {k})
             else s.(doomed := s.doomed - {k})
  }

  ghost predicate DoCleanupIndexed(s: State, k: Key, s': State) {
    && k in s.swept
    && s' == s.(swept := s.swept - {k}, index := s.index - {k})
  }

  ghost predicate DoDeviceTake(s: State, k: Key, s': State) {
    && k in s.store && s.store[k].phase == Created
    && s' == s.(store := SetPhase(s.store, k, Processing))
  }

  ghost predicate DoDeviceUse(s: State, k: Key, s': State) {
    && k in s.store && s.store[k].phase == Processing
    && s' == s.(store := SetPhase(s.store, k, InUse))
  }

  ghost predicate DoRelease(s: State, k: Key, s': State) {
    && k in s.store && s.store[k].phase == InUse
    && s' == s.(store := s.store - {k})
  }

  ghost predicate DoSync(s: State, k: Key, phase: Phase, s': State) {
    // An event may be late: it may carry an earlier status of the live claim, but not the empty one.
    && (k in s.store ==> phase.Rank() <= s.store[k].phase.Rank() && (phase == Unset ==> s.store[k].phase == Unset))
    && s' == s.(index := if k in s.store then s.index[k := s.store[k].(phase := phase)] else s.index - {k})
  }

  /** Everyone else: cleanup of deleted pods, device plugins, CDI watchers, the informer. */
  ghost predicate OtherMove(s: State, a: Action, s': State) {
    match a
    case CleanupList(pod) => DoCleanupList(s, pod, s')
    case CleanupStore(k) => DoCleanupStore(s, k, s')
    case CleanupIndexed(k) => DoCleanupIndexed(s, k, s')
    case DeviceTake(k) => DoDeviceTake(s, k, s')
    case DeviceUse(k) => DoDeviceUse(s, k, s')
    case Release(k) => DoRelease(s, k, s')
    case Sync(k, phase) => DoSync(s, k, phase, s')
    case _ => false
  }

  ghost predicate Step(cfg: Config, s: State, a: Action, s': State) {
    FilterMove(cfg, s, a, s') || CycleMove(s, a, s') || BindMove(s, a, s') || OtherMove(s, a, s')
  }
}
