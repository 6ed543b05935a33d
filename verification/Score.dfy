/** Node scoring: the score is the share of slots that no claim occupies. */
module Score {
  import opened Claims
  import opened Sums
  import opened SlotSearch

  const MAX_SCORE: int := 100

  function ZeroSlots(slots: seq<int>): nat {
    if slots == [] then 0 else ZeroSlots(slots[..|slots| - 1]) + if slots[|slots| - 1] == 0 then 1 else 0
  }

  /** Free slots over the node's first n GPUs, as the index shows them. */
  function FreeSlots(m: ClaimMap, res: Resources, node: string, n: nat): nat
    requires n <= |res.gpus|
  {
    if n == 0 then 0 else FreeSlots(m, res, node, n - 1) + ZeroSlots(Occupied(m, node, res.gpus[n - 1], ""))
  }

  function NodeScore(m: ClaimMap, res: Resources, node: string): int {
    if res.gpus == [] then 0 else FreeSlots(m, res, node, |res.gpus|) * MAX_SCORE / (SLOTS * |res.gpus|)
  }

  // ---- occupied slots are the claims' slots ----

  function Interval(start: int, size: nat): set<int> {
    set i | start <= i < start + size && Within(start, size, i)
  }

  predicate Within(start: int, size: nat, i: int) {
    start <= i < start + size
  }

  lemma {:induction false} IntervalSize(start: int, size: nat)
    ensures |Interval(start, size)| == size
  {
    if size > 0 {
      IntervalSize(start, size - 1);
      assert Interval(start, size) == Interval(start, size - 1) + {start + size - 1};
    }
  }

  function Here(m: ClaimMap, node: string, gpu: string): set<Key> {
    set k | k in m && m[k].node == node && m[k].gpu == gpu
  }

  /** The slots covered by some of the claims. */
  function CoveredSlots(m: ClaimMap, ks: set<Key>): set<int> {
    set i | 0 <= i < SLOTS && CoveredBy(m, ks, i)
  }

  predicate CoveredBy(m: ClaimMap, ks: set<Key>, i: int) {
    exists k :: k in ks && k in m && Covers(m[k], i)
  }

  lemma CoverSplit(m: ClaimMap, ks: set<Key>, k: Key)
    requires k in ks && k in m && InRange(m[k])
    requires forall a :: a in ks && a != k ==> a in m && InRange(m[a]) && Apart(m[a], m[k])
    ensures CoveredSlots(m, ks) == CoveredSlots(m, ks - {k}) + Interval(m[k].start, m[k].size)
    ensures CoveredSlots(m, ks - {k}) !! Interval(m[k].start, m[k].size)
  {
  }

  function SizeOf(m: ClaimMap): Key -> nat {
    k => if k in m && m[k].size >= 0 then m[k].size else 0
  }

  lemma {:induction false} CoveredIsSum(m: ClaimMap, ks: set<Key>)
    requires forall k :: k in ks ==> k in m && InRange(m[k])
    requires forall a, b :: a in ks && b in ks && a != b ==> Apart(m[a], m[b])
    ensures |CoveredSlots(m, ks)| == Sum(ks, SizeOf(m))
    decreases |ks|
  {
    if ks == {} {
      assert CoveredSlots(m, ks) == {};
    } else {
      var k :| k in ks;
      var rest := ks - {k};
      CoveredIsSum(m, rest);
      SumRemove(ks, k, SizeOf(m));
      IntervalSize(m[k].start, m[k].size);
      CoverSplit(m, ks, k);
    }
  }

  function Taken(slots: seq<int>): set<int> {
    set i | 0 <= i < |slots| && slots[i] != 0
  }

  lemma {:induction false} ZeroesAndOnes(slots: seq<int>)
    ensures ZeroSlots(slots) + |Taken(slots)| == |slots|
  {
    if slots != [] {
      var n := |slots| - 1;
      ZeroesAndOnes(slots[..n]);
      assert Taken(slots) == if slots[n] != 0 then Taken(slots[..n]) + {n} else Taken(slots[..n]);
    }
  }

  lemma FreeOnGpu(m: ClaimMap, node: string, gpu: string)
    requires NoOverlap(m) && forall k :: k in m ==> InRange(m[k])
    ensures ZeroSlots(Occupied(m, node, gpu, "")) + Sum(Here(m, node, gpu), SizeOf(m)) == SLOTS
  {
    var slots := Occupied(m, node, gpu, "");
    ZeroesAndOnes(slots);
    assert Taken(slots) == CoveredSlots(m, Here(m, node, gpu));
    CoveredIsSum(m, Here(m, node, gpu));
  }

  /** The claims on the node's first n GPUs. */
  function OnFirst(m: ClaimMap, res: Resources, node: string, n: nat): set<Key>
    requires n <= |res.gpus|
  {
    set k | k in m && m[k].node == node && m[k].gpu in res.gpus[..n]
  }

  /** Free slots are all slots less the sizes of the live claims. */
  lemma {:induction false} FreeIsComplement(m: ClaimMap, res: Resources, node: string, n: nat)
    requires n <= |res.gpus| && NoDuplicates(res.gpus) && NoOverlap(m) && forall k :: k in m ==> InRange(m[k])
    ensures FreeSlots(m, res, node, n) + Sum(OnFirst(m, res, node, n), SizeOf(m)) == SLOTS * n
  {
    if n == 0 {
      assert OnFirst(m, res, node, n) == {};
    } else {
      hide NoOverlap, Occupied, SizeOf;
      FreeIsComplement(m, res, node, n - 1);
      FreeOnGpu(m, node, res.gpus[n - 1]);
      OnFirstSplit(m, res, node, n);
      SumUnion(OnFirst(m, res, node, n - 1), Here(m, node, res.gpus[n - 1]), SizeOf(m));
    }
  }

  lemma OnFirstSplit(m: ClaimMap, res: Resources, node: string, n: nat)
    requires 0 < n <= |res.gpus| && NoDuplicates(res.gpus)
    ensures OnFirst(m, res, node, n) == OnFirst(m, res, node, n - 1) + Here(m, node, res.gpus[n - 1])
    ensures OnFirst(m, res, node, n - 1) !! Here(m, node, res.gpus[n - 1])
  {
  }

  function OnNode(m: ClaimMap, node: string): set<Key> {
    set k | k in m && m[k].node == node
  }

  /**
   * Score measures real free capacity: with the no-overlap invariant the free slots are eight per
   * GPU less the sizes of the node's live claims, and the score is their percentage, from 0 to 100.
   */
  lemma ScoreIsFreeCapacity(m: ClaimMap, res: Resources, node: string)
    requires NoDuplicates(res.gpus) && NoOverlap(m) && forall k :: k in m ==> InRange(m[k])
    requires forall k :: k in m && m[k].node == node ==> m[k].gpu in res.gpus
    ensures var used := Sum(OnNode(m, node), SizeOf(m));
      && used <= SLOTS * |res.gpus|
      && FreeSlots(m, res, node, |res.gpus|) == SLOTS * |res.gpus| - used
    ensures 0 <= NodeScore(m, res, node) <= 100
    ensures var used, score := Sum(OnNode(m, node), SizeOf(m)), NodeScore(m, res, node);
      var total := 8 * |res.gpus|;
      if res.gpus == [] then score == 0 else score * total <= 100 * (total - used) < (score + 1) * total
  {
    hide NoOverlap, Occupied, SizeOf;
    var n := |res.gpus|;
    FreeIsComplement(m, res, node, n);
    assert res.gpus[..n] == res.gpus;
    assert OnFirst(m, res, node, n) == OnNode(m, node);
    if n > 0 {
      Share(FreeSlots(m, res, node, n), SLOTS * n);
      Bracket(FreeSlots(m, res, node, n) * MAX_SCORE, SLOTS * n);
    }
  }

  lemma Bracket(x: nat, d: nat)
    requires d > 0
    ensures (x / d) * d <= x < (x / d + 1) * d
  {
    assert x == (x / d) * d + x % d;
  }

  lemma Share(part: nat, whole: nat)
    requires part <= whole && whole > 0
    ensures 0 <= part * MAX_SCORE / whole <= MAX_SCORE
  {
  }

  lemma FactorOrder(a: nat, b: nat, d: nat)
    requires d > 0
    ensures a * d < b * d + d ==> a <= b
  {
    var e := a - b - 1;
    assert a * d == b * d + d + e * d by { assert a == b + 1 + e; }
    assert e >= 0 ==> e * d >= 0;
  }

  // ---- adding a claim ----

  lemma {:induction false} FewerZeroes(a: seq<int>, b: seq<int>)
    requires |a| == |b| && forall i :: 0 <= i < |a| ==> (b[i] == 0 ==> a[i] == 0)
    ensures ZeroSlots(b) <= ZeroSlots(a)
  {
    if a != [] { FewerZeroes(a[..|a| - 1], b[..|b| - 1]); }
  }

  lemma {:induction false} FewerFree(m: ClaimMap, k: Key, c: Claim, res: Resources, node: string, n: nat)
    requires n <= |res.gpus| && k !in m
    ensures FreeSlots(m[k := c], res, node, n) <= FreeSlots(m, res, node, n)
  {
    if n > 0 {
      FewerFree(m, k, c, res, node, n - 1);
      MoreOccupied(m, k, c, node, res.gpus[n - 1]);
      FewerZeroes(Occupied(m, node, res.gpus[n - 1], ""), Occupied(m[k := c], node, res.gpus[n - 1], ""));
    }
  }

  lemma MoreOccupied(m: ClaimMap, k: Key, c: Claim, node: string, gpu: string)
    requires k !in m
    ensures forall i :: 0 <= i < SLOTS && Occupied(m[k := c], node, gpu, "")[i] == 0 ==>
      Occupied(m, node, gpu, "")[i] == 0
  {
    var m' := m[k := c];
    assert forall q :: q in m ==> q in m' && m'[q] == m[q];
  }

  /** Adding a claim anywhere never raises a node's score. */
  lemma ScoreNeverRises(m: ClaimMap, k: Key, c: Claim, res: Resources, node: string)
    requires k !in m
    ensures NodeScore(m[k := c], res, node) <= NodeScore(m, res, node)
  {
    var n := |res.gpus|;
    FewerFree(m, k, c, res, node, n);
    if n > 0 {
      DivMonotone(FreeSlots(m[k := c], res, node, n) * MAX_SCORE, FreeSlots(m, res, node, n) * MAX_SCORE, SLOTS * n);
    }
  }

  lemma DivMonotone(x: nat, y: nat, d: nat)
    requires d > 0 && x <= y
    ensures x / d <= y / d
  {
    FactorOrder(x / d, y / d, d);
    assert (x / d) * d <= x && y < (y / d) * d + d;
  }
}
