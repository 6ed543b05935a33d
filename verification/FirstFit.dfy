/**
 * What Filter's placement means for a reader of the index: every slice goes to the first GPU in node
 * order, and there to the first listed start, at which nothing stands in its way.
 */
module FirstFit {
  import opened Claims
  import opened Sums
  import opened SlotSearch
  import opened Greedy
  import opened SchedulerSpec

  /** A slice that the same Filter call has already placed. */
  datatype Booking = Booking(gpu: string, start: int, size: int)

  /** The two intervals are apart, or one of them is empty. */
  predicate NoCommonSlot(start1: int, size1: int, start2: int, size2: int) {
    size1 <= 0 || size2 <= 0 || start1 + size1 <= start2 || start2 + size2 <= start1
  }

  /**
   * The interval lies on the GPU, no other pod has a staged claim on that GPU, and no claim of
   * another pod and no slice placed earlier shares a slot with it.
   */
  predicate Open(index: ClaimMap, node: string, pod: string, earlier: seq<Booking>, gpu: string, start: int,
                 size: int) {
    && 0 <= start && start + size <= 8
    && (forall k :: k in index && index[k].node == node && index[k].gpu == gpu && index[k].pod != pod ==>
          index[k].phase != Staged && NoCommonSlot(index[k].start, index[k].size, start, size))
    && (forall b :: b in earlier && b.gpu == gpu ==> NoCommonSlot(b.start, b.size, start, size))
  }

  /** The listed placement j of the profile on GPU g is open; all placements count with the first one's size. */
  predicate OpenAt(index: ClaimMap, res: Resources, node: string, pod: string, earlier: seq<Booking>, profile: string,
                   g: nat, j: nat)
    requires g < |res.gpus| && profile in res.table && j < |res.table[profile]|
  {
    var ps := res.table[profile];
    Open(index, node, pod, earlier, res.gpus[g], ps[j].start, ps[0].size)
  }

  /** The spot is the first open placement: GPUs in node order, starts in listed order. */
  ghost predicate FirstOpen(index: ClaimMap, res: Resources, node: string, pod: string, earlier: seq<Booking>,
                            profile: string, spot: Spot)
  {
    && profile in res.table && res.table[profile] != [] && res.table[profile][0].size in {1, 2, 4, 8}
    && exists g: nat, j: nat :: (
         && g < |res.gpus| && j < |res.table[profile]|
         && spot == Spot(res.gpus[g], res.table[profile][j].start)
         && OpenAt(index, res, node, pod, earlier, profile, g, j)
         && forall g2: nat, j2: nat | g2 < |res.gpus| && j2 < |res.table[profile]| && (g2 < g || (g2 == g && j2 < j)) ::
              !OpenAt(index, res, node, pod, earlier, profile, g2, j2))
  }

  ghost predicate NoneOpen(index: ClaimMap, res: Resources, node: string, pod: string, earlier: seq<Booking>,
                           profile: string)
  {
    profile in res.table && res.table[profile] != [] && res.table[profile][0].size in {1, 2, 4, 8} ==>
      forall g: nat, j: nat | g < |res.gpus| && j < |res.table[profile]| ::
        !OpenAt(index, res, node, pod, earlier, profile, g, j)
  }

  /** The slices of the first n requests. */
  function Bookings(res: Resources, profiles: seq<string>, spots: seq<Spot>, n: nat): (bs: seq<Booking>)
    requires n <= |spots| <= |profiles|
    ensures |bs| == n
  {
    seq(n, i requires 0 <= i < n =>
      Booking(spots[i].gpu, spots[i].start,
              if profiles[i] in res.table && res.table[profiles[i]] != [] then res.table[profiles[i]][0].size else 0))
  }

  /** Each spot is the first open one after those before it, and the list ends where nothing is open any more. */
  ghost predicate FirstFitPlan(index: ClaimMap, res: Resources, node: string, pod: string, earlier: seq<Booking>,
                               profiles: seq<string>, spots: seq<Spot>)
  {
    && |spots| <= |profiles|
    && (forall i :: 0 <= i < |spots| ==>
          FirstOpen(index, res, node, pod, earlier + Bookings(res, profiles, spots, i), profiles[i], spots[i]))
    && (|spots| < |profiles| ==>
          NoneOpen(index, res, node, pod, earlier + Bookings(res, profiles, spots, |spots|), profiles[|spots|]))
  }

  // ---- the slot tables show exactly what is open ----

  ghost predicate Claimed(index: ClaimMap, node: string, pod: string, gpu: string, i: int) {
    exists k :: k in index && index[k].node == node && index[k].gpu == gpu && index[k].pod != pod
                && index[k].start <= i < index[k].start + index[k].size
  }

  ghost predicate Booked(earlier: seq<Booking>, gpu: string, i: int) {
    exists b :: b in earlier && b.gpu == gpu && b.start <= i < b.start + b.size
  }

  ghost predicate StagedByOther(index: ClaimMap, node: string, pod: string, gpu: string) {
    exists k :: k in index && index[k].node == node && index[k].gpu == gpu && index[k].pod != pod
                && index[k].phase == Staged
  }

  ghost predicate Shows(occ: Tables, index: ClaimMap, res: Resources, node: string, pod: string,
                        earlier: seq<Booking>) {
    forall g :: g in res.gpus ==> ShowsGpu(occ, index, node, pod, earlier, g)
  }

  ghost predicate ShowsGpu(occ: Tables, index: ClaimMap, node: string, pod: string, earlier: seq<Booking>, g: string) {
    && (g in occ <==> !StagedByOther(index, node, pod, g))
    && (g in occ ==> forall i :: 0 <= i < SLOTS ==>
          (occ[g][i] == 0 <==> !Claimed(index, node, pod, g, i) && !Booked(earlier, g, i)))
  }

  lemma SnapshotShows(w: World, res: Resources, pod: string, node: string)
    ensures Shows(Snapshot(Purged(w, pod, node).index, res, pod, node), w.index, res, node, pod, [])
  {
    var m := Purged(w, pod, node).index;
    forall g | g in res.gpus
      ensures ShowsGpu(Snapshot(m, res, pod, node), w.index, node, pod, [], g)
    {
      PurgedShows(w, pod, node, g);
    }
  }

  lemma PurgedShows(w: World, pod: string, node: string, g: string)
    ensures var m := Purged(w, pod, node).index;
      && (HeldByOther(m, node, g, pod) <==> StagedByOther(w.index, node, pod, g))
      && forall i :: 0 <= i < SLOTS ==> (Occupied(m, node, g, pod)[i] == 0 <==> !Claimed(w.index, node, pod, g, i))
  {
    var m := Purged(w, pod, node).index;
    assert forall k :: k in m ==> k in w.index && m[k] == w.index[k];
    assert forall k :: k in w.index && w.index[k].pod != pod ==> k in m;
    assert forall k :: k in m && m[k].node == node ==> m[k].pod != pod;
    forall i | 0 <= i < SLOTS
      ensures Occupied(m, node, g, pod)[i] == 0 <==> !Claimed(w.index, node, pod, g, i)
    {
      if k :| k in w.index && w.index[k].node == node && w.index[k].gpu == g && w.index[k].pod != pod
              && w.index[k].start <= i < w.index[k].start + w.index[k].size {
        assert k in m && Covers(m[k], i);
      }
      if k :| k in m && m[k].node == node && m[k].gpu == g && (pod == "" || m[k].pod != pod) && Covers(m[k], i) {
        assert w.index[k] == m[k];
      }
    }
  }

  lemma FitsIsOpen(occ: Tables, index: ClaimMap, res: Resources, node: string, pod: string, earlier: seq<Booking>,
                   g: string, start: int, size: int)
    requires Shows(occ, index, res, node, pod, earlier) && g in res.gpus && 1 <= size
    ensures g in occ && Fits(occ[g], start, size) <==> Open(index, node, pod, earlier, g, start, size)
  {
    assert ShowsGpu(occ, index, node, pod, earlier, g);
    if g in occ && Fits(occ[g], start, size) {
      forall k | k in index && index[k].node == node && index[k].gpu == g && index[k].pod != pod
        ensures index[k].phase != Staged && NoCommonSlot(index[k].start, index[k].size, start, size)
      {
        var i := if index[k].start <= start then start else index[k].start;
        if index[k].start <= i < index[k].start + index[k].size {
          assert Claimed(index, node, pod, g, i);
        }
      }
      forall b | b in earlier && b.gpu == g
        ensures NoCommonSlot(b.start, b.size, start, size)
      {
        var i := if b.start <= start then start else b.start;
        if b.start <= i < b.start + b.size {
          assert Booked(earlier, g, i);
        }
      }
    }
  }

  lemma MarkShows(occ: Tables, index: ClaimMap, res: Resources, node: string, pod: string, earlier: seq<Booking>,
                  spot: Spot, size: int)
    requires Shows(occ, index, res, node, pod, earlier) && spot.gpu in occ
    ensures Shows(Mark(occ, spot, size), index, res, node, pod, earlier + [Booking(spot.gpu, spot.start, size)])
  {
    var occ', later := Mark(occ, spot, size), earlier + [Booking(spot.gpu, spot.start, size)];
    forall g | g in res.gpus
      ensures ShowsGpu(occ', index, node, pod, later, g)
    {
      assert ShowsGpu(occ, index, node, pod, earlier, g);
      forall i: int
        ensures Booked(later, g, i) <==> Booked(earlier, g, i) || (g == spot.gpu && spot.start <= i < spot.start + size)
      {
        BookedMore(earlier, Booking(spot.gpu, spot.start, size), g, i);
      }
    }
  }

  lemma BookedMore(earlier: seq<Booking>, b: Booking, g: string, i: int)
    ensures Booked(earlier + [b], g, i) <==> Booked(earlier, g, i) || (g == b.gpu && b.start <= i < b.start + b.size)
  {
    assert b in earlier + [b];
    assert forall x :: x in earlier ==> x in earlier + [b];
  }

  // ---- the GPU loop ----

  /** The chosen spot is the first free listed start on the first usable GPU, from position i on, that has one. */
  lemma {:induction false} ChooseIsFirst(res: Resources, occ: Tables, profile: string, i: nat)
    requires i <= |res.gpus| && profile in res.table && res.table[profile] != []
    requires SupportedSize(res.table[profile][0].size)
    ensures var c, ps := Choose(res, occ, profile, i), res.table[profile];
      && (c.None? ==> forall g: nat, j: nat | i <= g < |res.gpus| && j < |ps| ::
            !(res.gpus[g] in occ && Fits(occ[res.gpus[g]], ps[j].start, ps[0].size)))
      && (c.Some? ==> exists g: nat, j: nat :: (
            && i <= g < |res.gpus| && j < |ps| && c.value == Spot(res.gpus[g], ps[j].start)
            && res.gpus[g] in occ && Fits(occ[res.gpus[g]], ps[j].start, ps[0].size)
            && forall g2: nat, j2: nat | i <= g2 < |res.gpus| && j2 < |ps| && (g2 < g || (g2 == g && j2 < j)) ::
                 !(res.gpus[g2] in occ && Fits(occ[res.gpus[g2]], ps[j2].start, ps[0].size))))
    decreases |res.gpus| - i
  {
    if i < |res.gpus| {
      var ps, g := res.table[profile], res.gpus[i];
      if g in occ {
        StartIndexIsFirstFit(res, profile, occ[g]);
      }
      if g in occ && StartIndex(res, profile, occ[g]) != NO_START {
        var j: nat :| j < |ps| && ps[j].start == StartIndex(res, profile, occ[g])
                      && Fits(occ[g], ps[j].start, ps[0].size)
                      && forall j2 :: 0 <= j2 < j ==> !Fits(occ[g], ps[j2].start, ps[0].size);
        assert Choose(res, occ, profile, i).value == Spot(res.gpus[i], ps[j].start);
      } else {
        ChooseIsFirst(res, occ, profile, i + 1);
      }
    }
  }

  lemma ChooseIsOpen(res: Resources, occ: Tables, index: ClaimMap, node: string, pod: string, earlier: seq<Booking>,
                     profile: string)
    requires Shows(occ, index, res, node, pod, earlier)
    ensures var c := Choose(res, occ, profile);
      && (c.None? ==> NoneOpen(index, res, node, pod, earlier, profile))
      && (c.Some? ==> FirstOpen(index, res, node, pod, earlier, profile, c.value))
  {
    hide Shows, Open, Fits, Choose;
    if profile in res.table && res.table[profile] != [] && SupportedSize(res.table[profile][0].size) {
      var ps := res.table[profile];
      ChooseIsFirst(res, occ, profile, 0);
      forall g: nat, j: nat | g < |res.gpus| && j < |ps|
        ensures OpenAt(index, res, node, pod, earlier, profile, g, j) <==>
                res.gpus[g] in occ && Fits(occ[res.gpus[g]], ps[j].start, ps[0].size)
      {
        FitsIsOpen(occ, index, res, node, pod, earlier, res.gpus[g], ps[j].start, ps[0].size);
      }
    } else {
      ChoosesNothing(res, occ, profile, 0);
    }
  }

  lemma {:induction false} ChoosesNothing(res: Resources, occ: Tables, profile: string, i: nat)
    requires i <= |res.gpus|
    requires !(profile in res.table && res.table[profile] != [] && SupportedSize(res.table[profile][0].size))
    ensures Choose(res, occ, profile, i).None?
    decreases |res.gpus| - i
  {
    if i < |res.gpus| { ChoosesNothing(res, occ, profile, i + 1); }
  }

  // ---- the whole plan ----

  lemma {:induction false} PlanIsFirstFit(res: Resources, occ: Tables, index: ClaimMap, node: string, pod: string,
                                          earlier: seq<Booking>, profiles: seq<string>)
    requires Shows(occ, index, res, node, pod, earlier)
    ensures FirstFitPlan(index, res, node, pod, earlier, profiles, Plan(res, occ, profiles))
    decreases |profiles|
  {
    hide Shows, FirstOpen, NoneOpen;
    var spots := Plan(res, occ, profiles);
    if profiles != [] {
      ChooseIsOpen(res, occ, index, node, pod, earlier, profiles[0]);
      assert earlier + Bookings(res, profiles, spots, 0) == earlier;
      if Choose(res, occ, profiles[0]).Some? {
        ChooseFits(res, occ, profiles[0], 0);
        var spot, size := spots[0], ProfileSize(res, profiles[0]);
        var later := earlier + [Booking(spot.gpu, spot.start, size)];
        MarkShows(occ, index, res, node, pod, earlier, spot, size);
        PlanIsFirstFit(res, Mark(occ, spot, size), index, node, pod, later, profiles[1..]);
        forall i: nat | i < |spots|
          ensures earlier + Bookings(res, profiles, spots, i + 1) == later + Bookings(res, profiles[1..], spots[1..], i)
        {
        }
        PlanGrows(index, res, node, pod, earlier, later, profiles, spots);
      }
    }
  }

  lemma PlanGrows(index: ClaimMap, res: Resources, node: string, pod: string, earlier: seq<Booking>,
                  later: seq<Booking>,
                  profiles: seq<string>, spots: seq<Spot>)
    requires 0 < |spots| <= |profiles|
    requires FirstOpen(index, res, node, pod, earlier, profiles[0], spots[0])
    requires earlier + Bookings(res, profiles, spots, 0) == earlier
    requires forall i: nat | i < |spots| ::
      earlier + Bookings(res, profiles, spots, i + 1) == later + Bookings(res, profiles[1..], spots[1..], i)
    requires FirstFitPlan(index, res, node, pod, later, profiles[1..], spots[1..])
    ensures FirstFitPlan(index, res, node, pod, earlier, profiles, spots)
  {
    hide FirstOpen, NoneOpen, Bookings;
    forall i | 0 <= i < |spots|
      ensures FirstOpen(index, res, node, pod, earlier + Bookings(res, profiles, spots, i), profiles[i], spots[i])
    {
      if i > 0 {
        assert profiles[1..][i - 1] == profiles[i] && spots[1..][i - 1] == spots[i];
      }
    }
    if |spots| < |profiles| {
      assert profiles[1..][|spots| - 1] == profiles[|spots|];
    }
  }

  /** There is at most one first-fit plan. */
  lemma {:induction false} FirstFitIsUnique(index: ClaimMap, res: Resources, node: string, pod: string,
                                            earlier: seq<Booking>, profiles: seq<string>, a: seq<Spot>, b: seq<Spot>,
                                            n: nat)
    requires FirstFitPlan(index, res, node, pod, earlier, profiles, a)
    requires FirstFitPlan(index, res, node, pod, earlier, profiles, b)
    requires n <= |a| && n <= |b|
    ensures a[..n] == b[..n]
    ensures n == |a| ==> |a| == |b|
  {
    hide OpenAt;
    if n > 0 {
      FirstFitIsUnique(index, res, node, pod, earlier, profiles, a, b, n - 1);
      assert Bookings(res, profiles, a, n - 1) == Bookings(res, profiles, b, n - 1);
      assert a[..n] == a[..n - 1] + [a[n - 1]] && b[..n] == b[..n - 1] + [b[n - 1]];
    }
    assert Bookings(res, profiles, a, n) == Bookings(res, profiles, b, n);
  }

  /**
   * Filter without refused calls is first fit: its requests go one after the other to their first open
   * placements, each claim with the size the table lists; it passes exactly when every request finds
   * one, and refuses at the first that does not.
   */
  lemma FilterIsFirstFit(w: World, res: Resources, pod: string, node: string, reqs: seq<Req>) returns (spots: seq<Spot>)
    requires DistinctReqs(reqs)
    ensures FirstFitPlan(w.index, res, node, pod, [], Profiles(reqs), spots)
    ensures var o := Filter(w, res, pod, node, reqs, {});
      && (o.verdict == Success <==> |spots| == |reqs|) && (o.verdict == Unschedulable <==> |spots| < |reqs|)
      && (o.verdict == Success ==> forall i :: 0 <= i < |reqs| ==>
            PlacedAs(o.world.store, res, pod, node, reqs[i], spots[i]))
  {
    hide Own, Snapshot, Purged, FirstFitPlan, PlacedAs, StagedClaims;
    spots := PlanOn(w, res, pod, node, reqs);
    assert FirstFitPlan(w.index, res, node, pod, [], Profiles(reqs), spots) by {
      SnapshotShows(w, res, pod, node);
      PlanIsFirstFit(res, Snapshot(Purged(w, pod, node).index, res, pod, node), w.index, node, pod, [], Profiles(reqs));
    }
    NoFaults(pod, node, reqs, |spots|, 0);
    if |spots| == |reqs| {
      EditPlaces(w.store, Own(w.index, pod, node), w.index, res, pod, node, reqs, spots);
    }
  }

  /** The claim of the request sits at the spot, with the size the table lists first for its profile. */
  predicate PlacedAs(store: ClaimMap, res: Resources, pod: string, node: string, r: Req, spot: Spot) {
    && KeyOf(pod, node, r) in store && r.profile in res.table && res.table[r.profile] != []
    && store[KeyOf(pod, node, r)] ==
         Claim(r.profile, pod, node, spot.gpu, spot.start, res.table[r.profile][0].size, Staged)
  }

  lemma EditPlaces(m: ClaimMap, items: set<Key>, index: ClaimMap, res: Resources, pod: string, node: string,
                   reqs: seq<Req>, spots: seq<Spot>)
    requires DistinctReqs(reqs) && |spots| == |reqs|
    requires FirstFitPlan(index, res, node, pod, [], Profiles(reqs), spots)
    ensures forall i :: 0 <= i < |reqs| ==>
      PlacedAs(Edit(m, items, StagedClaims(res, pod, node, reqs, spots, |reqs|)), res, pod, node, reqs[i], spots[i])
  {
    hide OpenAt, StagedClaims;
    StagedClaimsAre(res, pod, node, reqs, spots, |reqs|);
    forall i | 0 <= i < |reqs|
      ensures PlacedAs(Edit(m, items, StagedClaims(res, pod, node, reqs, spots, |reqs|)), res, pod, node, reqs[i],
                       spots[i])
    {
      assert FirstOpen(index, res, node, pod, [] + Bookings(res, Profiles(reqs), spots, i), Profiles(reqs)[i],
                       spots[i]);
    }
  }

  // ---- how many copies of one profile are admitted ----

  /** The open listed placements from GPU g on. */
  function OpenPairs(index: ClaimMap, res: Resources, node: string, pod: string, profile: string, from: nat := 0)
    : set<(nat, nat)>
    requires profile in res.table
  {
    set g: nat, j: nat | from <= g < |res.gpus| && j < |res.table[profile]|
                         && OpenAt(index, res, node, pod, [], profile, g, j) :: (g, j)
  }

  function FreeFrom(ps: seq<Placement>, size: int, slots: Slots, from: nat): set<nat> {
    set j: nat | from <= j < |ps| && Fits(slots, ps[j].start, size)
  }

  lemma {:induction false} FreeCountIs(ps: seq<Placement>, size: int, slots: Slots, from: nat)
    requires from <= |ps|
    ensures FreeCount(ps[from..], size, slots) == |FreeFrom(ps, size, slots, from)|
    decreases |ps| - from
  {
    if from < |ps| {
      FreeCountIs(ps, size, slots, from + 1);
      assert ps[from..][1..] == ps[from + 1..];
      assert FreeFrom(ps, size, slots, from) ==
             (if Fits(slots, ps[from].start, size) then {from} else {}) + FreeFrom(ps, size, slots, from + 1);
    } else {
      assert FreeFrom(ps, size, slots, from) == {};
    }
  }

  lemma {:induction false} TotalFreeIsPairs(res: Resources, occ: Tables, index: ClaimMap, node: string, pod: string,
                                            profile: string, from: nat)
    requires Shows(occ, index, res, node, pod, []) && from <= |res.gpus|
    requires profile in res.table && res.table[profile] != [] && SupportedSize(res.table[profile][0].size)
    ensures TotalFree(res, occ, profile, from) == |OpenPairs(index, res, node, pod, profile, from)|
    decreases |res.gpus| - from
  {
    if from < |res.gpus| {
      hide Shows, OpenAt, OpenPairs, InRow, FreeFrom, Fits;
      TotalFreeIsPairs(res, occ, index, node, pod, profile, from + 1);
      var ps, g := res.table[profile], res.gpus[from];
      var row: set<nat> := if g in occ then FreeFrom(ps, ps[0].size, occ[g], 0) else {};
      OpenRow(res, occ, index, node, pod, profile, from, row);
      RowSize(from, row);
      PairsSplit(index, res, node, pod, profile, from, row);
      if g in occ {
        FreeCountIs(ps, ps[0].size, occ[g], 0);
        assert ps[0..] == ps;
      }
    } else {
      assert OpenPairs(index, res, node, pod, profile, from) == {};
    }
  }

  lemma PairsSplit(index: ClaimMap, res: Resources, node: string, pod: string, profile: string, from: nat,
                   row: set<nat>)
    requires profile in res.table && from < |res.gpus|
    requires forall j: nat :: j in row <==>
      j < |res.table[profile]| && OpenAt(index, res, node, pod, [], profile, from, j)
    ensures var rest := OpenPairs(index, res, node, pod, profile, from + 1);
      |OpenPairs(index, res, node, pod, profile, from)| == |InRow(from, row)| + |rest|
  {
    hide OpenAt;
    var rest := OpenPairs(index, res, node, pod, profile, from + 1);
    assert OpenPairs(index, res, node, pod, profile, from) == InRow(from, row) + rest;
    assert InRow(from, row) !! rest;
  }

  lemma OpenRow(res: Resources, occ: Tables, index: ClaimMap, node: string, pod: string, profile: string, g: nat,
                row: set<nat>)
    requires Shows(occ, index, res, node, pod, []) && g < |res.gpus|
    requires profile in res.table && res.table[profile] != [] && SupportedSize(res.table[profile][0].size)
    requires row == if res.gpus[g] in occ then FreeFrom(res.table[profile], res.table[profile][0].size,
                                                        occ[res.gpus[g]], 0) else {}
    ensures forall j: nat :: j in row <==> j < |res.table[profile]| && OpenAt(index, res, node, pod, [], profile, g, j)
  {
    hide Shows, Open, Fits;
    forall j: nat
      ensures j in row <==> j < |res.table[profile]| && OpenAt(index, res, node, pod, [], profile, g, j)
    {
      if j < |res.table[profile]| {
        FitsIsOpen(occ, index, res, node, pod, [], res.gpus[g], res.table[profile][j].start,
                   res.table[profile][0].size);
      }
    }
  }

  /**
   * Filter without refused calls admits n slices of one profile with disjoint placements if and only
   * if n is at most the number of pairs of a GPU and a listed placement of the profile such that no
   * other pod has a staged claim on that GPU and no claim of another pod there shares a slot with the
   * placement.
   */
  lemma FilterAdmits(w: World, res: Resources, pod: string, node: string, reqs: seq<Req>, profile: string)
    requires NoDuplicates(res.gpus)
    requires profile in res.table && res.table[profile] != [] && res.table[profile][0].size in {1, 2, 4, 8}
    requires DisjointPlacements(res.table[profile], res.table[profile][0].size)
    requires forall i :: 0 <= i < |reqs| ==> reqs[i].profile == profile
    ensures Filter(w, res, pod, node, reqs, {}).verdict == Success <==>
            |reqs| <= |OpenPairs(w.index, res, node, pod, profile)|
  {
    SnapshotShows(w, res, pod, node);
    TotalFreeIsPairs(res, Snapshot(Purged(w, pod, node).index, res, pod, node), w.index, node, pod, profile, 0);
    HomogeneousFilter(w, res, pod, node, reqs, profile);
  }
}
