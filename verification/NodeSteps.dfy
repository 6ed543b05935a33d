/**
 * What the node agent does to the store, taken as steps of the claim protocol: its claim selection,
 * its marking and the watcher's release keep the invariant that every run relies on.
 */
module NodeSteps {
  import opened Claims
  import opened Protocol
  import opened ProtocolInvariant
  import opened NodeAgent
  import Runs

  /** Moving created claims to processing, whichever and however many, keeps the invariant. */
  lemma {:induction false} TakesKeepInv(cfg: Config, s: State, ks: set<Key>)
    requires Inv(cfg, s) && forall k :: k in ks && k in s.store ==> s.store[k].phase == Created
    ensures Inv(cfg, s.(store := SetPhases(s.store, ks, Processing)))
    decreases |ks|
  {
    hide Inv;
    if ks == {} {
      SetNothing(s.store, Processing);
    } else {
      var k :| k in ks;
      var s1 := if k in s.store then s.(store := SetPhase(s.store, k, Processing)) else s;
      if k in s.store {
        Runs.StepKeepsInv(cfg, s, DeviceTake(k), s1);
      }
      TakesKeepInv(cfg, s1, ks - {k});
      assert SetPhases(s1.store, ks - {k}, Processing) == SetPhases(s.store, ks, Processing);
    }
  }

  /** Putting claims in processing to use keeps the invariant. */
  lemma {:induction false} UsesKeepInv(cfg: Config, s: State, ks: set<Key>)
    requires Inv(cfg, s) && forall k :: k in ks && k in s.store ==> s.store[k].phase == Processing
    ensures Inv(cfg, s.(store := SetPhases(s.store, ks, InUse)))
    decreases |ks|
  {
    hide Inv;
    if ks == {} {
      SetNothing(s.store, InUse);
    } else {
      var k :| k in ks;
      var s1 := if k in s.store then s.(store := SetPhase(s.store, k, InUse)) else s;
      if k in s.store {
        Runs.StepKeepsInv(cfg, s, DeviceUse(k), s1);
      }
      UsesKeepInv(cfg, s1, ks - {k});
      assert SetPhases(s1.store, ks - {k}, InUse) == SetPhases(s.store, ks, InUse);
    }
  }

  lemma {:induction false} ReleasesKeepInv(cfg: Config, s: State, ks: set<Key>)
    requires Inv(cfg, s) && forall k :: k in ks && k in s.store ==> s.store[k].phase == InUse
    ensures Inv(cfg, s.(store := s.store - ks))
    decreases |ks|
  {
    hide Inv;
    if ks == {} {
      assert s.store - ks == s.store;
    } else {
      var k :| k in ks;
      var s1 := if k in s.store then s.(store := s.store - {k}) else s;
      if k in s.store {
        Runs.StepKeepsInv(cfg, s, Release(k), s1);
      }
      ReleasesKeepInv(cfg, s1, ks - {k});
      assert s1.store - (ks - {k}) == s.store - ks;
    }
  }

  /** The watcher's release of a spec with balanced books is a series of protocol steps. */
  lemma RemovalKeepsInv(cfg: Config, s: State, ledger: Specs, slices: set<string>, node: string, hardware: bool,
                        path: string)
    requires Inv(cfg, s) && Balanced(ledger, s.store, slices, node, hardware) && path in ledger
    ensures Inv(cfg, s.(store := s.store - RecordedKeys(ledger[path])))
  {
    hide Inv, RecordedKeys, RecordedUuids;
    forall k | k in RecordedKeys(ledger[path])
      ensures k in s.store && s.store[k].phase == InUse
    {
      assert k in InUseOf(s.store, node, ledger[path].kind);
    }
    ReleasesKeepInv(cfg, s, RecordedKeys(ledger[path]));
  }

  /** So is the fetch of an agent whose index is in sync. */
  lemma FetchKeepsInv(cfg: Config, s: State, index: ClaimMap, moved: set<Key>)
    requires Inv(cfg, s) && InSync(index, s.store)
    requires forall k :: k in moved ==> k in index && index[k].phase == Created
    ensures Inv(cfg, s.(store := SetPhases(s.store, moved, Processing)))
  {
    hide Inv;
    TakesKeepInv(cfg, s, moved);
  }

  // ---- claims are handed out once, over every run ----

  /** Every claim of the set was live and past created in some state of the run so far. */
  ghost predicate HandedOut(states: seq<State>, given: set<Key>) {
    forall k :: k in given ==>
      exists i :: 0 <= i < |states| && k in states[i].store && states[i].store[k].phase.Rank() >= 3
  }

  /** What was handed out in a run never comes back as created, not even under a name that was deleted. */
  lemma GivenStaysGiven(cfg: Config, states: seq<State>, actions: seq<Action>, given: set<Key>)
    requires Runs.IsRun(cfg, states, actions) && HandedOut(states, given)
    ensures PastCreated(given, states[|states| - 1].store)
  {
    hide Runs.IsRun;
    assert |states| > 0 by { RunHasStates(cfg, states, actions); }
    forall k | k in given && k in states[|states| - 1].store
      ensures states[|states| - 1].store[k].phase.Rank() >= 3
    {
      var i :| 0 <= i < |states| && k in states[i].store && states[i].store[k].phase.Rank() >= 3;
      Runs.RankNeverFalls(cfg, states, actions, i, |states| - 1, k);
    }
  }

  lemma RunHasStates(cfg: Config, states: seq<State>, actions: seq<Action>)
    requires Runs.IsRun(cfg, states, actions)
    ensures |states| > 0
  {
  }

  lemma ExtendOne(cfg: Config, states: seq<State>, actions: seq<Action>, a: Action, s': State)
    requires Runs.IsRun(cfg, states, actions) && Step(cfg, states[|states| - 1], a, s')
    ensures Runs.IsRun(cfg, states + [s'], actions + [a])
  {
    hide Step;
    var states', actions' := states + [s'], actions + [a];
    forall i | 0 <= i < |actions'|
      ensures Step(cfg, states'[i], actions'[i], states'[i + 1])
    {
      if i < |actions| { assert Step(cfg, states[i], actions[i], states[i + 1]); }
    }
  }

  /** The agent's fetch continues a run of the protocol, and what it takes is handed out in it. */
  lemma {:induction false} FetchExtendsRun(cfg: Config, states: seq<State>, actions: seq<Action>, ks: set<Key>)
    returns (states': seq<State>, actions': seq<Action>)
    requires Runs.IsRun(cfg, states, actions)
    requires forall k :: k in ks ==> k in states[|states| - 1].store && states[|states| - 1].store[k].phase == Created
    ensures Runs.IsRun(cfg, states', actions') && states <= states'
    ensures var s := states[|states| - 1];
      states'[|states'| - 1] == s.(store := SetPhases(s.store, ks, Processing))
    ensures HandedOut(states', ks)
    decreases |ks|
  {
    hide Runs.IsRun, Step, HandedOut, SetPhases, SetPhase;
    RunHasStates(cfg, states, actions);
    var s := states[|states| - 1];
    if ks == {} {
      SetNothing(s.store, Processing);
      states', actions' := states, actions;
    } else {
      var k :| k in ks;
      var s1 := s.(store := SetPhase(s.store, k, Processing));
      TakeOne(cfg, s, s1, k, ks);
      ExtendOne(cfg, states, actions, DeviceTake(k), s1);
      assert (states + [s1])[|states|] == s1;
      states', actions' := FetchExtendsRun(cfg, states + [s1], actions + [DeviceTake(k)], ks - {k});
    }
    RunHasStates(cfg, states', actions');
    LastHandsOut(states', ks, s.store);
  }

  lemma TakeOne(cfg: Config, s: State, s1: State, k: Key, ks: set<Key>)
    requires k in ks && forall q :: q in ks ==> q in s.store && s.store[q].phase == Created
    requires s1 == s.(store := SetPhase(s.store, k, Processing))
    ensures Step(cfg, s, DeviceTake(k), s1)
    ensures forall q :: q in ks - {k} ==> q in s1.store && s1.store[q].phase == Created
    ensures SetPhases(s1.store, ks - {k}, Processing) == SetPhases(s.store, ks, Processing)
    ensures s1.(store := s.store) == s
  {
  }

  lemma LastHandsOut(states: seq<State>, ks: set<Key>, m: ClaimMap)
    requires |states| > 0 && ks <= m.Keys && states[|states| - 1].store == SetPhases(m, ks, Processing)
    ensures HandedOut(states, ks)
  {
    var n := |states| - 1;
    assert forall k :: k in ks ==> k in states[n].store && states[n].store[k].phase.Rank() >= 3;
  }

  /** Marking in use continues a run, too. */
  lemma {:induction false} UsesExtendRun(cfg: Config, states: seq<State>, actions: seq<Action>, ks: set<Key>)
    returns (states': seq<State>, actions': seq<Action>)
    requires Runs.IsRun(cfg, states, actions)
    requires forall k :: k in ks ==>
      k in states[|states| - 1].store && states[|states| - 1].store[k].phase == Processing
    ensures Runs.IsRun(cfg, states', actions') && states <= states'
    ensures var s := states[|states| - 1];
      states'[|states'| - 1] == s.(store := SetPhases(s.store, ks, InUse))
    decreases |ks|
  {
    hide Runs.IsRun, Step, SetPhases, SetPhase;
    RunHasStates(cfg, states, actions);
    var s := states[|states| - 1];
    if ks == {} {
      SetNothing(s.store, InUse);
      states', actions' := states, actions;
    } else {
      var k :| k in ks;
      var s1 := s.(store := SetPhase(s.store, k, InUse));
      UseOne(cfg, s, s1, k, ks);
      ExtendOne(cfg, states, actions, DeviceUse(k), s1);
      assert (states + [s1])[|states|] == s1;
      states', actions' := UsesExtendRun(cfg, states + [s1], actions + [DeviceUse(k)], ks - {k});
    }
    RunHasStates(cfg, states', actions');
  }

  lemma UseOne(cfg: Config, s: State, s1: State, k: Key, ks: set<Key>)
    requires k in ks && forall q :: q in ks ==> q in s.store && s.store[q].phase == Processing
    requires s1 == s.(store := SetPhase(s.store, k, InUse))
    ensures Step(cfg, s, DeviceUse(k), s1)
    ensures forall q :: q in ks - {k} ==> q in s1.store && s1.store[q].phase == Processing
    ensures SetPhases(s1.store, ks - {k}, InUse) == SetPhases(s.store, ks, InUse)
    ensures s1.(store := s.store) == s
  {
  }

  /** Whatever an Allocate does to the store continues a run of the protocol. */
  lemma OnwardExtendsRun(cfg: Config, states: seq<State>, actions: seq<Action>, store': ClaimMap)
    returns (states': seq<State>, actions': seq<Action>)
    requires Runs.IsRun(cfg, states, actions) && Onward(states[|states| - 1].store, store')
    ensures Runs.IsRun(cfg, states', actions') && states <= states'
    ensures states'[|states'| - 1] == states[|states| - 1].(store := store')
  {
    hide Runs.IsRun, Onward, SetPhases;
    RunHasStates(cfg, states, actions);
    var s := states[|states| - 1];
    var taken := set k | k in s.store && k in store' && s.store[k].phase == Created && store'[k] != s.store[k];
    var used := set k | k in s.store && k in store' && store'[k].phase == InUse && store'[k] != s.store[k];
    OnwardInTwo(s.store, store', taken, used);
    var mid, midActions := FetchExtendsRun(cfg, states, actions, taken);
    RunHasStates(cfg, mid, midActions);
    states', actions' := UsesExtendRun(cfg, mid, midActions, used);
    RunHasStates(cfg, states', actions');
  }

  /** Moving onward is first taking, then using. */
  lemma OnwardInTwo(m: ClaimMap, m': ClaimMap, taken: set<Key>, used: set<Key>)
    requires Onward(m, m')
    requires taken == set k | k in m && k in m' && m[k].phase == Created && m'[k] != m[k]
    requires used == set k | k in m && k in m' && m'[k].phase == InUse && m'[k] != m[k]
    ensures forall k :: k in taken ==> k in m && m[k].phase == Created
    ensures var mid := SetPhases(m, taken, Processing);
      && (forall k :: k in used ==> k in mid && mid[k].phase == Processing)
      && SetPhases(mid, used, InUse) == m'
  {
    var mid := SetPhases(m, taken, Processing);
    var end := SetPhases(mid, used, InUse);
    forall k | k in m
      ensures k in end && end[k] == m'[k]
    {
    }
    assert end.Keys == m'.Keys;
  }

  lemma HandedOutLater(states: seq<State>, states': seq<State>, given: set<Key>, more: set<Key>)
    requires HandedOut(states, given) && states <= states' && states' != []
    requires forall k :: k in more ==>
      k in states'[|states'| - 1].store && states'[|states'| - 1].store[k].phase.Rank() >= 3
    ensures HandedOut(states', given + more)
  {
    forall k | k in given + more
      ensures exists i :: 0 <= i < |states'| && k in states'[i].store && states'[i].store[k].phase.Rank() >= 3
    {
      if k in given {
        var i :| 0 <= i < |states| && k in states[i].store && states[i].store[k].phase.Rank() >= 3;
        assert states'[i] == states[i];
      }
    }
  }

  /**
   * An Allocate inside a run: it continues the run to the agent's new store, what it gives was given
   * to nobody before, and everything given so far is handed out in the longer run.
   */
  method AllocateInRun(agent: Agent, profile: string, requests: seq<seq<string>>, supply: seq<Option<string>>,
                       paths: seq<string>, ghost cfg: Config, ghost states: seq<State>, ghost actions: seq<Action>)
    returns (ok: bool, ghost claims: seq<Key>, ghost states': seq<State>, ghost actions': seq<Action>)
    requires agent.Valid() && |supply| == Total(requests, |requests|) && GoodSupply(supply, agent.slices)
    requires |paths| == |requests| && NoDuplicates(paths)
    requires forall p :: p in paths ==> p !in agent.ledger && p !in agent.events
    requires Runs.IsRun(cfg, states, actions) && HandedOut(states, agent.given)
    requires states[|states| - 1].store == agent.store == agent.index
    modifies agent
    ensures agent.Valid() && Runs.IsRun(cfg, states', actions') && HandedOut(states', agent.given)
    ensures states <= states' && states'[|states'| - 1] == states[|states| - 1].(store := agent.store)
    ensures agent.store == agent.index
    ensures Keys(claims) !! old(agent.given) && agent.given == old(agent.given) + Keys(claims) && NoDuplicates(claims)
    ensures claims == [] || |claims| == Total(requests, |requests|)
    ensures claims != [] <==> 0 < Total(requests, |requests|) <= old(|Available(agent.index, agent.node, profile)|)
    ensures ok <==> claims == [] || !agent.hardware || None !in supply
    ensures ok ==> agent.store == SetPhases(old(agent.store), Keys(claims), InUse)
    ensures agent.events == old(agent.events)
    ensures forall p :: p !in paths ==> (p in agent.ledger <==> p in old(agent.ledger))
    ensures old(agent.slices) <= agent.slices <= old(agent.slices) + Supplied(supply)
  {
    hide Balanced, Complete, Runs.IsRun, HandedOut, Onward, FilesInOrder, TrackedIn, Available, GoodSupply, SetPhases,
         Supplied;
    ghost var store0 := agent.store;
    AvailableIs(agent.index, agent.node, profile);
    ok, claims := agent.Allocate(profile, requests, supply, paths);
    StillSame(store0, agent.store, agent.index);
    states', actions' := OnwardExtendsRun(cfg, states, actions, agent.store);
    RunHasStates(cfg, states', actions');
    GivenIsPast(store0, agent.store, agent.given, claims, agent.node, profile);
    HandedOutLater(states, states', old(agent.given), Keys(claims));
    SetNothing(store0, InUse);
    assert claims == [] ==> Keys(claims) == {};
  }

  lemma StillSame(before: ClaimMap, store: ClaimMap, index: ClaimMap)
    requires Onward(before, store) && Onward(before, index) && InSync(index, store)
    ensures index == store
  {
  }

  lemma GivenIsPast(before: ClaimMap, store: ClaimMap, given: set<Key>, claims: seq<Key>, node: string, profile: string)
    requires Onward(before, store) && Fetchable(before, claims, node, profile) && PastCreated(given, store)
    requires Keys(claims) <= given
    ensures forall k :: k in Keys(claims) ==> k in store && store[k].phase.Rank() >= 3
  {
  }

  /**
   * The agent catches up with the last state of a run that went on from its own store. That no claim
   * it handed out is created again and that its claims in use are as it left them is not assumed:
   * both follow from the run. Others have put no claim of the node to use, nor released one.
   */
  method CatchUp(agent: Agent, latest: ClaimMap, ghost cfg: Config, ghost states: seq<State>,
                 ghost actions: seq<Action>, ghost i: nat)
    requires agent.Valid() && Runs.IsRun(cfg, states, actions) && HandedOut(states, agent.given)
    requires i < |states| && agent.store == states[i].store && latest == states[|states| - 1].store
    requires InUseOn(latest, agent.node) == InUseOn(agent.store, agent.node)
    modifies agent`store, agent`index
    ensures agent.Valid() && agent.store == latest == agent.index && (old(agent.AllRecorded()) ==> agent.AllRecorded())
  {
    hide Balanced, Complete, Runs.IsRun, HandedOut;
    GivenStaysGiven(cfg, states, actions, agent.given);
    assert Keyed(latest) by {
      Runs.RunKeepsInv(cfg, states, actions, |states| - 1);
      Runs.StoreIsKeyed(cfg, states[|states| - 1]);
    }
    forall k | k in InUseOn(agent.store, agent.node)
      ensures k in latest && latest[k] == agent.store[k]
    {
      InUseStays(cfg, states, actions, i, k, agent.node);
    }
    agent.Refresh(latest);
  }

  /** A claim in use that is still live later in the run is still as it was. */
  lemma InUseStays(cfg: Config, states: seq<State>, actions: seq<Action>, i: nat, k: Key, node: string)
    requires Runs.IsRun(cfg, states, actions) && i < |states|
    requires k in InUseOn(states[i].store, node) && k in InUseOn(states[|states| - 1].store, node)
    ensures states[|states| - 1].store[k] == states[i].store[k]
  {
    hide Runs.IsRun;
    var last := |states| - 1;
    Runs.RankNeverFalls(cfg, states, actions, i, i, k);
    forall n | i <= n <= last
      ensures k in states[n].store
    {
      Runs.RankNeverFalls(cfg, states, actions, i, n, k);
      Runs.NothingNewSince(cfg, states, actions, n, last, k);
    }
    Runs.Lifecycle(cfg, states, actions, i, last, k);
  }

  // ---- every sequence of Allocates ----

  /** One Allocate request with the UUIDs and the file names it will meet. */
  datatype Round = Round(profile: string, requests: seq<seq<string>>, supply: seq<Option<string>>, paths: seq<string>) {
    ghost predicate Fits() {
      |supply| == Total(requests, |requests|) && |paths| == |requests| && NoDuplicates(paths)
    }
  }

  /** File names and UUIDs from round i on are new to the node and to each other. */
  ghost predicate FreshFrom(rounds: seq<Round>, i: nat, ledger: Specs, events: seq<string>, slices: set<string>) {
    && (forall j :: i <= j < |rounds| ==> rounds[j].Fits() && GoodSupply(rounds[j].supply, slices))
    && (forall j, p :: i <= j < |rounds| && p in rounds[j].paths ==> p !in ledger && p !in events)
    && (forall j, m :: i <= j < m < |rounds| ==> Unrelated(rounds[j], rounds[m]))
  }

  ghost predicate Unrelated(a: Round, b: Round) {
    (forall p :: p in a.paths ==> p !in b.paths) && Supplied(a.supply) !! Supplied(b.supply)
  }

  lemma FreshNext(rounds: seq<Round>, i: nat, ledger: Specs, events: seq<string>, slices: set<string>, ledger': Specs,
                  slices': set<string>)
    requires i < |rounds| && FreshFrom(rounds, i, ledger, events, slices)
    requires forall p :: p !in rounds[i].paths ==> (p in ledger' <==> p in ledger)
    requires slices' <= slices + Supplied(rounds[i].supply)
    ensures FreshFrom(rounds, i + 1, ledger', events, slices')
  {
    forall j | i + 1 <= j < |rounds|
      ensures GoodSupply(rounds[j].supply, slices')
    {
      assert Unrelated(rounds[i], rounds[j]);
      StillGood(rounds[j].supply, slices, slices', Supplied(rounds[i].supply));
    }
    forall j, p | i + 1 <= j < |rounds| && p in rounds[j].paths
      ensures p !in ledger' && p !in events
    {
      assert Unrelated(rounds[i], rounds[j]);
    }
  }

  lemma StillGood(supply: seq<Option<string>>, slices: set<string>, slices': set<string>, made: set<string>)
    requires GoodSupply(supply, slices) && slices' <= slices + made && Supplied(supply) !! made
    ensures GoodSupply(supply, slices')
  {
    forall i | 0 <= i < |supply| && supply[i].Some?
      ensures supply[i].value !in slices'
    {
      assert supply[i] in supply && supply[i].value in Supplied(supply);
    }
  }

  /** Some steps of the protocol lead from one state to the other. */
  ghost predicate Leads(cfg: Config, s: State, s': State, path: seq<State>, actions: seq<Action>) {
    && |path| == |actions| + 1 && path[0] == s && path[|actions|] == s'
    && forall i :: 0 <= i < |actions| ==> Step(cfg, path[i], actions[i], path[i + 1])
  }

  /**
   * What the other participants do between two Allocates, by round and state of the cluster: any
   * steps of the protocol that neither put a claim of the node to use nor delete one in use.
   */
  ghost predicate Environment(cfg: Config, node: string, others: (nat, State) -> State) {
    forall i: nat, s: State ::
      && InUseOn(others(i, s).store, node) == InUseOn(s.store, node)
      && exists path: seq<State>, actions: seq<Action> :: Leads(cfg, s, others(i, s), path, actions)
  }

  /** Steps from the last state of a run continue it. */
  lemma PathExtendsRun(cfg: Config, states: seq<State>, actions: seq<Action>, s': State, path: seq<State>,
                       more: seq<Action>)
    requires Runs.IsRun(cfg, states, actions) && Leads(cfg, states[|states| - 1], s', path, more)
    ensures Runs.IsRun(cfg, states + path[1..], actions + more)
    ensures (states + path[1..])[|states + path[1..]| - 1] == s'
  {
    hide Step;
    var all, acts := states + path[1..], actions + more;
    forall i | 0 <= i < |acts|
      ensures Step(cfg, all[i], acts[i], all[i + 1])
    {
      if i < |actions| {
        assert Step(cfg, states[i], actions[i], states[i + 1]);
      } else {
        assert Step(cfg, path[i - |actions|], more[i - |actions|], path[i - |actions| + 1]);
      }
    }
  }

  /**
   * Every sequence of Allocates on a node, with whatever the scheduler, the other nodes and the
   * informer do in between, new claims included: no claim is given twice, and each call gives every
   * requested device id a claim of its own or gives none.
   */
  method ServeRounds(agent: Agent, rounds: seq<Round>, s0: State, others: (nat, State) -> State,
                     ghost cfg: Config, ghost states0: seq<State>, ghost actions0: seq<Action>)
    returns (ghost given: seq<seq<Key>>)
    requires agent.Valid() && Environment(cfg, agent.node, others)
    requires FreshFrom(rounds, 0, agent.ledger, agent.events, agent.slices)
    requires Runs.IsRun(cfg, states0, actions0) && HandedOut(states0, agent.given)
    requires states0[|states0| - 1] == s0 && s0.store == agent.store
    modifies agent
    ensures agent.Valid() && |given| == |rounds|
    ensures forall i :: 0 <= i < |rounds| ==>
      NoDuplicates(given[i]) && (given[i] == [] || |given[i]| == Total(rounds[i].requests, |rounds[i].requests|))
    ensures forall i :: 0 <= i < |rounds| ==> Keys(given[i]) !! old(agent.given)
    ensures forall i, j :: 0 <= i < j < |rounds| ==> Keys(given[i]) !! Keys(given[j])
  {
    hide Balanced, Complete, Runs.IsRun, HandedOut, FilesInOrder, InSync, PastCreated, FreshFrom, Environment,
         GoodSupply,
         Available, NoDuplicates, Keys, SetPhases;
    given := [];
    var s := s0;
    ghost var states, actions := states0, actions0;
    RunHasStates(cfg, states, actions);
    var i := 0;
    while i < |rounds|
      invariant 0 <= i == |given| <= |rounds| && agent.Valid() && old(agent.given) <= agent.given
      invariant Runs.IsRun(cfg, states, actions) && HandedOut(states, agent.given)
      invariant |states| > 0 && states[|states| - 1] == s && s.store == agent.store
      invariant FreshFrom(rounds, i, agent.ledger, agent.events, agent.slices)
      invariant forall j :: 0 <= j < i ==> Keys(given[j]) <= agent.given && Keys(given[j]) !! old(agent.given)
      invariant forall j :: 0 <= j < i ==>
        NoDuplicates(given[j]) && (given[j] == [] || |given[j]| == Total(rounds[j].requests, |rounds[j].requests|))
      invariant forall j, m :: 0 <= j < m < i ==> Keys(given[j]) !! Keys(given[m])
    {
      s, states, actions := Arrivals(agent, i, s, others, cfg, states, actions);
      ghost var claims;
      var ok;
      ok, claims, states, actions := OneRound(agent, rounds, i, cfg, states, actions);
      s := s.(store := agent.store);
      given := given + [claims];
      i := i + 1;
    }
  }

  /** The agent catches up with what the others did. */
  method Arrivals(agent: Agent, i: nat, s: State, others: (nat, State) -> State, ghost cfg: Config,
                  ghost states: seq<State>, ghost actions: seq<Action>)
    returns (s': State, ghost states': seq<State>, ghost actions': seq<Action>)
    requires agent.Valid() && Environment(cfg, agent.node, others)
    requires Runs.IsRun(cfg, states, actions) && HandedOut(states, agent.given)
    requires |states| > 0 && states[|states| - 1] == s && s.store == agent.store
    modifies agent`store, agent`index
    ensures agent.Valid() && Runs.IsRun(cfg, states', actions') && HandedOut(states', agent.given)
    ensures s' == others(i, s) && |states'| > 0 && states'[|states'| - 1] == s'
    ensures s'.store == agent.store == agent.index
  {
    hide Balanced, Complete, Runs.IsRun, HandedOut, FilesInOrder, InSync, PastCreated, InUseOn, Leads;
    s' := others(i, s);
    ghost var path: seq<State>, more: seq<Action> :| Leads(cfg, s, s', path, more);
    assert path != [] by { PathHasStates(cfg, s, s', path, more); }
    PathExtendsRun(cfg, states, actions, s', path, more);
    states', actions' := states + path[1..], actions + more;
    HandedOutLater(states, states', agent.given, {});
    assert agent.given + {} == agent.given;
    CatchUp(agent, s'.store, cfg, states', actions', |states| - 1);
  }

  lemma PathHasStates(cfg: Config, s: State, s': State, path: seq<State>, actions: seq<Action>)
    requires Leads(cfg, s, s', path, actions)
    ensures path != []
  {
  }

  method OneRound(agent: Agent, rounds: seq<Round>, i: nat, ghost cfg: Config, ghost states: seq<State>,
                  ghost actions: seq<Action>)
    returns (ok: bool, ghost claims: seq<Key>, ghost states': seq<State>, ghost actions': seq<Action>)
    requires agent.Valid() && i < |rounds| && FreshFrom(rounds, i, agent.ledger, agent.events, agent.slices)
    requires Runs.IsRun(cfg, states, actions) && HandedOut(states, agent.given)
    requires |states| > 0 && states[|states| - 1].store == agent.store == agent.index
    modifies agent
    ensures agent.Valid() && Runs.IsRun(cfg, states', actions') && HandedOut(states', agent.given)
    ensures |states'| > 0 && states'[|states'| - 1] == states[|states| - 1].(store := agent.store)
    ensures FreshFrom(rounds, i + 1, agent.ledger, agent.events, agent.slices)
    ensures Keys(claims) !! old(agent.given) && agent.given == old(agent.given) + Keys(claims) && NoDuplicates(claims)
    ensures claims == [] || |claims| == Total(rounds[i].requests, |rounds[i].requests|)
  {
    hide Balanced, Complete, Runs.IsRun, HandedOut, FilesInOrder, InSync, PastCreated, GoodSupply, Available, SetPhases,
         Supplied;
    var round := rounds[i];
    ghost var ledger0, slices0 := agent.ledger, agent.slices;
    ok, claims, states', actions' := AllocateInRun(agent, round.profile, round.requests, round.supply, round.paths, cfg,
                                                   states, actions);
    FreshNext(rounds, i, ledger0, agent.events, slices0, agent.ledger, agent.slices);
  }
}
