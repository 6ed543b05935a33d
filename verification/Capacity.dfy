/** The device count a node advertises for a profile, and why the live claims never exceed it. */
module Capacity {
  import opened Claims
  import opened Sums
  import opened ProtocolInvariant
  import opened Protocol

  function PositivePlacements(ps: seq<Placement>): nat {
    if ps == [] then 0 else PositivePlacements(ps[..|ps| - 1]) + if ps[|ps| - 1].size > 0 then 1 else 0
  }

  function Advertised(res: Resources, profile: string): nat {
    if profile in res.table then PositivePlacements(res.table[profile]) * |res.gpus| else 0
  }

  /** countDevices: the placements of positive size, on every GPU. */
  method CountDevices(res: Resources, profile: string) returns (count: nat)
    ensures count == Advertised(res, profile)
  {
    if profile !in res.table {
      return 0;
    }
    var ps := res.table[profile];
    var n := 0;
    var i := 0;
    while i < |ps|
      invariant 0 <= i <= |ps|
      invariant n == PositivePlacements(ps[..i])
    {
      assert ps[..i + 1][..i] == ps[..i];
      if ps[i].size > 0 {
        n := n + 1;
      }
      i := i + 1;
    }
    assert ps[..i] == ps;
    return n * |res.gpus|;
  }

  /** The device count is the number of pairs of a GPU and a placement of positive size. */
  lemma AdvertisedIsPairs(res: Resources, profile: string)
    requires profile in res.table
    ensures var ps := res.table[profile];
      Advertised(res, profile) == |set g: nat, j: nat | g < |res.gpus| && j < |ps| && ps[j].size > 0 :: (g, j)|
  {
    var ps := res.table[profile];
    PositiveIs(ps);
    GridSize(|res.gpus|, Positive(ps));
    assert Grid(|res.gpus|, Positive(ps)) ==
           set g: nat, j: nat | g < |res.gpus| && j < |ps| && ps[j].size > 0 :: (g, j);
  }

  function Positive(ps: seq<Placement>): set<nat> {
    set j: nat | j < |ps| && ps[j].size > 0
  }

  lemma {:induction false} PositiveIs(ps: seq<Placement>)
    ensures PositivePlacements(ps) == |Positive(ps)|
  {
    if ps == [] {
      assert Positive(ps) == {};
    } else {
      var n := |ps| - 1;
      PositiveIs(ps[..n]);
      assert Positive(ps) == Positive(ps[..n]) + if ps[n].size > 0 then {n} else {};
    }
  }

  function Grid(rows: nat, js: set<nat>): set<(nat, nat)> {
    set g: nat, j: nat | g < rows && j in js :: (g, j)
  }

  lemma {:induction false} GridSize(rows: nat, js: set<nat>)
    ensures |Grid(rows, js)| == |js| * rows
  {
    if rows == 0 {
      assert Grid(rows, js) == {};
    } else {
      GridSize(rows - 1, js);
      RowSize(rows - 1, js);
      assert Grid(rows, js) == Grid(rows - 1, js) + InRow(rows - 1, js);
      assert Grid(rows - 1, js) !! InRow(rows - 1, js);
      Times(|js|, rows);
    }
  }

  lemma {:induction false} AllPositive(ps: seq<Placement>)
    requires forall i :: 0 <= i < |ps| ==> ps[i].size > 0
    ensures PositivePlacements(ps) == |ps|
  {
    if ps != [] { AllPositive(ps[..|ps| - 1]); }
  }

  lemma AtMostOne(a: set<Key>)
    requires forall x, y :: x in a && y in a ==> x == y
    ensures |a| <= 1
  {
    if a != {} {
      var x :| x in a;
      assert a == {x};
    }
  }

  lemma SplitSize(all: set<Key>, a: set<Key>, b: set<Key>)
    requires all == a + b && a !! b
    ensures |all| == |a| + |b|
  {
  }

  function At(m: ClaimMap, ks: set<Key>, start: int): set<Key> {
    set k | k in ks && k in m && m[k].start == start
  }

  /** Claims with pairwise different starts taken from a list are no more than the list is long. */
  lemma {:induction false} DistinctStarts(m: ClaimMap, ks: set<Key>, starts: seq<int>)
    requires ks <= m.Keys
    requires forall k :: k in ks ==> m[k].start in starts
    requires forall k1, k2 :: k1 in ks && k2 in ks && m[k1].start == m[k2].start ==> k1 == k2
    ensures |ks| <= |starts|
  {
    if starts == [] {
      assert forall k :: k !in ks;
    } else {
      var here, rest := At(m, ks, starts[0]), ks - At(m, ks, starts[0]);
      assert starts == [starts[0]] + starts[1..];
      DistinctStarts(m, rest, starts[1..]);
      AtMostOne(here);
      SplitSize(ks, here, rest);
    }
  }

  function OnGpu(m: ClaimMap, ks: set<Key>, gpu: string): set<Key> {
    set k | k in ks && k in m && m[k].gpu == gpu
  }

  /** Adding up over the GPUs. */
  lemma {:induction false} OverGpus(m: ClaimMap, ks: set<Key>, gpus: seq<string>, bound: nat)
    requires ks <= m.Keys
    requires forall k :: k in ks ==> m[k].gpu in gpus
    requires forall g :: g in gpus ==> |OnGpu(m, ks, g)| <= bound
    ensures |ks| <= bound * |gpus|
  {
    if gpus == [] {
      assert forall k :: k !in ks;
    } else {
      var here, rest := OnGpu(m, ks, gpus[0]), ks - OnGpu(m, ks, gpus[0]);
      assert gpus == [gpus[0]] + gpus[1..];
      forall g | g in gpus[1..]
        ensures |OnGpu(m, rest, g)| <= bound
      {
        SubsetSize(OnGpu(m, rest, g), OnGpu(m, ks, g));
      }
      OverGpus(m, rest, gpus[1..], bound);
      SplitSize(ks, here, rest);
      Times(bound, |gpus|);
    }
  }

  lemma Times(bound: nat, n: nat)
    requires n > 0
    ensures bound * n == bound * (n - 1) + bound
  {
  }

  /**
   * Advertised capacity bounds reservations: disjoint non-empty intervals have different starts, so
   * the live claims of a profile on a node are at most its listed placements times its GPUs.
   */
  lemma ClaimsWithinCapacity(cfg: Config, m: ClaimMap, node: string, profile: string)
    requires AllPlaced(cfg, m) && NoOverlap(m) && node in cfg && profile in cfg[node].table
    requires forall i :: 0 <= i < |cfg[node].table[profile]| ==> cfg[node].table[profile][i].size > 0
    ensures |set k | k in m && m[k].node == node && m[k].profile == profile| <= Advertised(cfg[node], profile)
  {
    var res, ks := cfg[node], set k | k in m && m[k].node == node && m[k].profile == profile;
    var ps := res.table[profile];
    var starts := seq(|ps|, i requires 0 <= i < |ps| => ps[i].start);
    assert forall i :: 0 <= i < |ps| ==> ps[i].start in starts by {
      assert forall i :: 0 <= i < |ps| ==> starts[i] == ps[i].start;
    }
    forall g | g in res.gpus
      ensures |OnGpu(m, ks, g)| <= |ps|
    {
      StartsDiffer(m, ks, node, g);
      DistinctStarts(m, OnGpu(m, ks, g), starts);
    }
    OverGpus(m, ks, res.gpus, |ps|);
    AllPositive(ps);
  }

  lemma StartsDiffer(m: ClaimMap, ks: set<Key>, node: string, g: string)
    requires NoOverlap(m) && ks <= m.Keys && forall k :: k in ks ==> m[k].node == node && InRange(m[k])
    ensures forall k1, k2 :: k1 in OnGpu(m, ks, g) && k2 in OnGpu(m, ks, g) && m[k1].start == m[k2].start ==> k1 == k2
  {
  }
}
