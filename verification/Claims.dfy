/** The data every component shares: claims, their names, and the node tables. */
module Claims {
  datatype Option<+T> = None | Some(value: T)

  const SLOTS: int := 8
  const NO_START: int := 9

  /** Status of an AllocationClaim. `Unset` is the empty status right after Create. */
  datatype Phase = Unset | Staged | Created | Processing | InUse {
    function Rank(): nat {
      match this
      case Unset => 0
      case Staged => 1
      case Created => 2
      case Processing => 3
      case InUse => 4
    }
  }

  /** The object name of a claim, before it is rendered to a string (see Naming.ClaimName). */
  datatype Key = Key(pod: string, node: string, container: string, ordinal: nat)

  datatype Claim = Claim(profile: string, pod: string, node: string, gpu: string,
                         start: int, size: int, phase: Phase)

  datatype Placement = Placement(size: int, start: int)

  datatype Resources = Resources(gpus: seq<string>, table: map<string, seq<Placement>>) {
    /** What the search for a profile needs in order not to index out of bounds. */
    predicate Searchable(profile: string) {
      profile in table ==>
        |table[profile]| > 0 && forall i :: 0 <= i < |table[profile]| ==> 0 <= table[profile][i].start < SLOTS
    }
  }

  type Slots = s: seq<int> | |s| == SLOTS witness [0, 0, 0, 0, 0, 0, 0, 0]

  type ClaimMap = map<Key, Claim>

  predicate SupportedSize(size: int) {
    size == 1 || size == 2 || size == 4 || size == 8
  }

  /** The half-open slot intervals [start, start + size) of two claims do not meet. */
  predicate Apart(a: Claim, b: Claim) {
    a.start + a.size <= b.start || b.start + b.size <= a.start
  }

  predicate InRange(c: Claim) {
    0 <= c.start && 1 <= c.size && c.start + c.size <= SLOTS
  }

  predicate SameSpec(a: Claim, b: Claim) {
    a.(phase := Unset) == b.(phase := Unset)
  }

  /** Every entry records the pod and node its name was built from. */
  predicate Keyed(m: ClaimMap) {
    forall k :: k in m ==> m[k].pod == k.pod && m[k].node == k.node
  }

  /** Two live claims on one node and GPU never share a slot. */
  predicate NoOverlap(m: ClaimMap) {
    forall k1, k2 |
      && k1 in m && k2 in m && k1 != k2
      && m[k1].node == m[k2].node && m[k1].gpu == m[k2].gpu
      :: Apart(m[k1], m[k2])
  }

  /** Claims not yet promoted on one node and GPU belong to a single pod. */
  predicate StagedExclusive(m: ClaimMap) {
    forall k1, k2 |
      && k1 in m && k2 in m
      && m[k1].node == m[k2].node && m[k1].gpu == m[k2].gpu
      && m[k1].phase.Rank() <= 1 && m[k2].phase.Rank() <= 1
      :: m[k1].pod == m[k2].pod
  }

  // ---- names in sequences and sets ----

  predicate NoDuplicates<T(==)>(xs: seq<T>) {
    forall i, j :: 0 <= i < j < |xs| ==> xs[i] != xs[j]
  }

  function Keys(ks: seq<Key>): set<Key> {
    set k | k in ks
  }

  lemma DropMore(m: ClaimMap, gone: set<Key>, k: Key)
    ensures m - gone - {k} == m - (gone + {k})
  {
  }

  lemma SubsetSize(a: set<Key>, b: set<Key>)
    requires a <= b
    ensures |a| <= |b|
  {
    assert b == a + (b - a);
  }
}
