/** Greedy placement of a request list over the usable GPUs of a node, and when it is optimal. */
module Greedy {
  import opened Claims
  import opened SlotSearch

  datatype Spot = Spot(gpu: string, start: int)

  /** Slot tables of the usable GPUs; a GPU held by another pod's staged claims is absent. */
  type Tables = map<string, Slots>

  /** The first GPU from position i on, in node order, that is usable and has a free start. */
  function Choose(res: Resources, occ: Tables, profile: string, i: nat := 0): Option<Spot>
    requires i <= |res.gpus|
    decreases |res.gpus| - i
  {
    if i == |res.gpus| then None
    else if res.gpus[i] in occ && StartIndex(res, profile, occ[res.gpus[i]]) != NO_START
    then Some(Spot(res.gpus[i], StartIndex(res, profile, occ[res.gpus[i]])))
    else Choose(res, occ, profile, i + 1)
  }

  function Mark(occ: Tables, spot: Spot, size: int): (r: Tables)
    requires spot.gpu in occ
    ensures r.Keys == occ.Keys
  {
    occ[spot.gpu := MarkSlots(occ[spot.gpu], spot.start, size)]
  }

  lemma {:induction false} ChooseFits(res: Resources, occ: Tables, profile: string, i: nat)
    requires i <= |res.gpus|
    requires Choose(res, occ, profile, i).Some?
    ensures var spot := Choose(res, occ, profile, i).value;
      && spot.gpu in occ && spot.gpu in res.gpus
      && profile in res.table && SupportedSize(ProfileSize(res, profile))
      && Fits(occ[spot.gpu], spot.start, ProfileSize(res, profile))
      && exists j :: 0 <= j < |res.table[profile]| && res.table[profile][j].start == spot.start
    decreases |res.gpus| - i
  {
    if res.gpus[i] in occ && StartIndex(res, profile, occ[res.gpus[i]]) != NO_START {
      StartIndexFits(res, profile, occ[res.gpus[i]]);
    } else {
      ChooseFits(res, occ, profile, i + 1);
    }
  }

  /** The spots of the longest prefix of the requests that first fit can place. */
  function Plan(res: Resources, occ: Tables, profiles: seq<string>): (spots: seq<Spot>)
    ensures |spots| <= |profiles|
  {
    if profiles == [] || Choose(res, occ, profiles[0]).None? then []
    else
      ChooseFits(res, occ, profiles[0], 0);
      var spot := Choose(res, occ, profiles[0]).value;
      [spot] + Plan(res, Mark(occ, spot, ProfileSize(res, profiles[0])), profiles[1..])
  }

  // ---- optimality for homogeneous requests ----

  /** The listed placements of the profile, all at its size, are on the GPU and pairwise disjoint. */
  predicate DisjointPlacements(ps: seq<Placement>, size: int) {
    && (forall i :: 0 <= i < |ps| ==> 0 <= ps[i].start < SLOTS)
    && (forall i, j :: 0 <= i < j < |ps| ==> ps[i].start + size <= ps[j].start || ps[j].start + size <= ps[i].start)
  }

  function FreeCount(ps: seq<Placement>, size: int, slots: Slots): nat {
    if ps == [] then 0
    else (if Fits(slots, ps[0].start, size) then 1 else 0) + FreeCount(ps[1..], size, slots)
  }

  /** Free listed placements over the usable GPUs from position i on. */
  function TotalFree(res: Resources, occ: Tables, profile: string, i: nat := 0): nat
    requires i <= |res.gpus|
    decreases |res.gpus| - i
  {
    if i == |res.gpus| then 0
    else
      (if res.gpus[i] in occ && profile in res.table
       then FreeCount(res.table[profile], ProfileSize(res, profile), occ[res.gpus[i]]) else 0)
      + TotalFree(res, occ, profile, i + 1)
  }

  lemma {:induction false} FreeCountZero(ps: seq<Placement>, size: int, slots: Slots)
    requires 0 <= size
    ensures FreeCount(ps, size, slots) == 0 <==> FirstFree(ps, size, slots) == NO_START
  {
    if ps != [] {
      FreeCountZero(ps[1..], size, slots);
    }
  }

  lemma {:induction false} MarkElsewhere(ps: seq<Placement>, size: int, slots: Slots, start: int)
    requires 1 <= size
    requires forall i :: 0 <= i < |ps| ==> ps[i].start + size <= start || start + size <= ps[i].start
    ensures FreeCount(ps, size, MarkSlots(slots, start, size)) == FreeCount(ps, size, slots)
  {
    if ps != [] {
      MarkElsewhere(ps[1..], size, slots, start);
      assert Fits(MarkSlots(slots, start, size), ps[0].start, size) <==> Fits(slots, ps[0].start, size);
    }
  }

  /** Taking the first free placement uses up exactly one free placement. */
  lemma {:induction false} MarkUsesOne(ps: seq<Placement>, size: int, slots: Slots)
    requires 1 <= size && DisjointPlacements(ps, size)
    requires FirstFree(ps, size, slots) != NO_START
    ensures FreeCount(ps, size, MarkSlots(slots, FirstFree(ps, size, slots), size)) == FreeCount(ps, size, slots) - 1
  {
    var start := FirstFree(ps, size, slots);
    var marked := MarkSlots(slots, start, size);
    if Fits(slots, ps[0].start, size) {
      assert marked[start] == 1;
      MarkElsewhere(ps[1..], size, slots, start);
    } else {
      MarkUsesOne(ps[1..], size, slots);
      assert !Fits(marked, ps[0].start, size) by {
        var i :| ps[0].start <= i < ps[0].start + size && (i >= SLOTS || slots[i] != 0);
        assert i < SLOTS ==> marked[i] != 0;
      }
    }
  }

  lemma {:induction false} TotalFreeFrame(res: Resources, occ: Tables, spot: Spot, size: int, profile: string, i: nat)
    requires i <= |res.gpus| && spot.gpu in occ && spot.gpu !in res.gpus[i..]
    ensures TotalFree(res, Mark(occ, spot, size), profile, i) == TotalFree(res, occ, profile, i)
    decreases |res.gpus| - i
  {
    if i < |res.gpus| {
      assert res.gpus[i] in res.gpus[i..];
      assert forall g :: g in res.gpus[i + 1..] ==> g in res.gpus[i..];
      TotalFreeFrame(res, occ, spot, size, profile, i + 1);
    }
  }

  /** Greedy finds a spot exactly when a free listed placement is left, and then uses up exactly one. */
  lemma {:induction false} ChooseUsesOne(res: Resources, occ: Tables, profile: string, i: nat)
    requires NoDuplicates(res.gpus) && i <= |res.gpus|
    requires profile in res.table && SupportedSize(ProfileSize(res, profile))
    requires DisjointPlacements(res.table[profile], ProfileSize(res, profile))
    ensures var choice := Choose(res, occ, profile, i);
      && (choice.None? <==> TotalFree(res, occ, profile, i) == 0)
      && (choice.Some? ==> (
            && choice.value.gpu in occ
            && TotalFree(res, Mark(occ, choice.value, ProfileSize(res, profile)), profile, i)
               == TotalFree(res, occ, profile, i) - 1))
    decreases |res.gpus| - i
  {
    if i < |res.gpus| {
      var ps, size, g := res.table[profile], ProfileSize(res, profile), res.gpus[i];
      if g in occ {
        FreeCountZero(ps, size, occ[g]);
      }
      if g in occ && StartIndex(res, profile, occ[g]) != NO_START {
        MarkUsesOne(ps, size, occ[g]);
        TotalFreeFrame(res, occ, Choose(res, occ, profile, i).value, size, profile, i + 1);
      } else {
        ChooseUsesOne(res, occ, profile, i + 1);
        var choice := Choose(res, occ, profile, i);
        if choice.Some? {
          ChooseFits(res, occ, profile, i + 1);
          ChooseLater(res, occ, profile, i + 1);
        }
      }
    }
  }

  lemma {:induction false} ChooseLater(res: Resources, occ: Tables, profile: string, i: nat)
    requires i <= |res.gpus| && Choose(res, occ, profile, i).Some?
    ensures Choose(res, occ, profile, i).value.gpu in res.gpus[i..]
    decreases |res.gpus| - i
  {
    if !(res.gpus[i] in occ && StartIndex(res, profile, occ[res.gpus[i]]) != NO_START) {
      ChooseLater(res, occ, profile, i + 1);
      assert res.gpus[i..] == [res.gpus[i]] + res.gpus[i + 1..];
    }
  }

  /**
   * Greedy is optimal for homogeneous requests: n copies of one profile with pairwise disjoint
   * placements are all placed exactly when n free listed placements exist on the usable GPUs.
   */
  lemma {:induction false} GreedyIsOptimal(res: Resources, occ: Tables, profile: string, profiles: seq<string>)
    requires NoDuplicates(res.gpus)
    requires profile in res.table && SupportedSize(ProfileSize(res, profile))
    requires DisjointPlacements(res.table[profile], ProfileSize(res, profile))
    requires forall i :: 0 <= i < |profiles| ==> profiles[i] == profile
    ensures |Plan(res, occ, profiles)| ==
            if |profiles| <= TotalFree(res, occ, profile) then |profiles| else TotalFree(res, occ, profile)
    decreases profiles
  {
    if profiles != [] {
      ChooseUsesOne(res, occ, profile, 0);
      if Choose(res, occ, profile).Some? {
        ChooseFits(res, occ, profile, 0);
        GreedyIsOptimal(res, Mark(occ, Choose(res, occ, profile).value, ProfileSize(res, profile)), profile,
                        profiles[1..]);
      }
    }
  }
}
