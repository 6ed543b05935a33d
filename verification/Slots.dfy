/** The slot arithmetic of one GPU: which starts are free, and which slots the claims occupy. */
module SlotSearch {
  import opened Claims

  /** The whole interval [start, start + size) lies on the GPU and is free. */
  predicate Fits(slots: Slots, start: int, size: int) {
    0 <= start && start + size <= SLOTS && forall i :: start <= i < start + size ==> slots[i] == 0
  }

  /** First fit over a placement list, every placement taken at the given size. */
  function FirstFree(ps: seq<Placement>, size: int, slots: Slots): int {
    if ps == [] then NO_START
    else if Fits(slots, ps[0].start, size) then ps[0].start
    else FirstFree(ps[1..], size, slots)
  }

  /** The size the code uses for a profile: that of its first listed placement. */
  function ProfileSize(res: Resources, profile: string): int {
    if profile in res.table && |res.table[profile]| > 0 then res.table[profile][0].size else 0
  }

  function StartIndex(res: Resources, profile: string, slots: Slots): int {
    if profile in res.table && SupportedSize(ProfileSize(res, profile))
    then FirstFree(res.table[profile], ProfileSize(res, profile), slots)
    else NO_START
  }

  /** First fit returns the first listed start whose interval is free, and 9 exactly when none is. */
  lemma {:induction false} FirstFreeIsFirst(ps: seq<Placement>, size: int, slots: Slots)
    requires 0 <= size
    ensures var r := FirstFree(ps, size, slots);
      && (r == NO_START <==> forall i :: 0 <= i < |ps| ==> !Fits(slots, ps[i].start, size))
      && (r != NO_START ==> exists k :: 0 <= k < |ps| && ps[k].start == r && Fits(slots, r, size)
                                        && forall i :: 0 <= i < k ==> !Fits(slots, ps[i].start, size))
  {
    if ps == [] {
    } else if Fits(slots, ps[0].start, size) {
      assert ps[0].start == FirstFree(ps, size, slots);
    } else {
      var rest := ps[1..];
      FirstFreeIsFirst(rest, size, slots);
      assert forall i :: 1 <= i < |ps| ==> ps[i] == rest[i - 1];
      var r := FirstFree(ps, size, slots);
      if r != NO_START {
        var k :| 0 <= k < |rest| && rest[k].start == r && Fits(slots, r, size)
                 && forall i :: 0 <= i < k ==> !Fits(slots, rest[i].start, size);
        assert ps[k + 1].start == r;
        forall i | 0 <= i < k + 1
          ensures !Fits(slots, ps[i].start, size)
        {
          if i > 0 { assert ps[i] == rest[i - 1]; }
        }
      } else {
        forall i | 0 <= i < |ps|
          ensures !Fits(slots, ps[i].start, size)
        {
          if i > 0 { assert ps[i] == rest[i - 1]; }
        }
      }
    }
  }

  lemma {:induction false} FirstFreeExtend(ps: seq<Placement>, p: Placement, size: int, slots: Slots)
    requires 0 <= size
    ensures FirstFree(ps + [p], size, slots) ==
            if FirstFree(ps, size, slots) != NO_START then FirstFree(ps, size, slots)
            else if Fits(slots, p.start, size) then p.start else NO_START
  {
    if ps == [] {
      assert ps + [p] == [p];
    } else {
      assert (ps + [p])[1..] == ps[1..] + [p];
      FirstFreeExtend(ps[1..], p, size, slots);
    }
  }

  /**
   * The search result, said without the recursion: the first listed start whose whole interval is
   * free, and 9 exactly when no listed start fits or the profile's size is not 1, 2, 4 or 8.
   */
  lemma StartIndexIsFirstFit(res: Resources, profile: string, slots: Slots)
    ensures var r := StartIndex(res, profile, slots);
      && (r == NO_START <==>
            || profile !in res.table || res.table[profile] == [] || res.table[profile][0].size !in {1, 2, 4, 8}
            || forall i :: 0 <= i < |res.table[profile]| ==>
                 !Fits(slots, res.table[profile][i].start, res.table[profile][0].size))
      && (r != NO_START ==> exists k :: (
            && 0 <= k < |res.table[profile]| && res.table[profile][k].start == r
            && Fits(slots, r, res.table[profile][0].size)
            && forall i :: 0 <= i < k ==> !Fits(slots, res.table[profile][i].start, res.table[profile][0].size)))
  {
    if profile in res.table && SupportedSize(ProfileSize(res, profile)) {
      FirstFreeIsFirst(res.table[profile], ProfileSize(res, profile), slots);
    }
  }

  /** A chosen start keeps the claim on the GPU and off every marked slot. */
  lemma StartIndexFits(res: Resources, profile: string, slots: Slots)
    requires StartIndex(res, profile, slots) != NO_START
    ensures profile in res.table && SupportedSize(ProfileSize(res, profile))
    ensures Fits(slots, StartIndex(res, profile, slots), ProfileSize(res, profile))
    ensures exists i :: 0 <= i < |res.table[profile]| && res.table[profile][i].start == StartIndex(res, profile, slots)
  {
    FirstFreeIsFirst(res.table[profile], ProfileSize(res, profile), slots);
  }

  /** The unrolled search of the scheduler: four hand-written sizes, no early exit for size 8. */
  method GetStartIndex(res: Resources, profile: string, slots: Slots) returns (newStart: int)
    requires res.Searchable(profile)
    ensures newStart == StartIndex(res, profile, slots)
  {
    var allAllocated := true;
    var i := 0;
    while i < SLOTS
      invariant 0 <= i <= SLOTS
      invariant allAllocated ==> forall j :: 0 <= j < i ==> slots[j] == 1
    {
      if slots[i] != 1 {
        allAllocated := false;
        break;
      }
      i := i + 1;
    }
    if allAllocated {
      if profile in res.table && SupportedSize(ProfileSize(res, profile)) {
        FirstFreeIsFirst(res.table[profile], ProfileSize(res, profile), slots);
        forall j | 0 <= j < |res.table[profile]|
          ensures !Fits(slots, res.table[profile][j].start, ProfileSize(res, profile))
        {
          assert slots[res.table[profile][j].start] == 1;
        }
      }
      return NO_START;
    }
    var needed, possible := 0, [];
    if profile in res.table {
      needed := res.table[profile][0].size;
      possible := res.table[profile];
    }
    newStart := NO_START;
    i := 0;
    while i < |possible|
      invariant 0 <= i <= |possible|
      invariant newStart == if SupportedSize(needed) then FirstFree(possible[..i], needed, slots) else NO_START
      invariant newStart != NO_START ==> needed == 8 && newStart == 0
    {
      var value := possible[i].start;
      assert possible[..i + 1] == possible[..i] + [possible[i]];
      if SupportedSize(needed) {
        FirstFreeExtend(possible[..i], possible[i], needed, slots);
      }
      ghost var before := newStart;
      if slots[value] == 0 {
        if needed == 1 {
          newStart := value;
          FirstFreePrefix(possible, i + 1, needed, slots);
          break;
        }
        if needed == 2 {
          if value + needed <= SLOTS {
            if slots[value] == 0 && slots[value + 1] == 0 {
              newStart := value;
              FirstFreePrefix(possible, i + 1, needed, slots);
              break;
            }
          }
        }
        if needed == 4 {
          if value + needed <= SLOTS {
            if slots[value] == 0 && slots[value + 1] == 0 && slots[value + 2] == 0 && slots[value + 3] == 0 {
              newStart := value;
              FirstFreePrefix(possible, i + 1, needed, slots);
              break;
            }
          }
        }
        if needed == 8 {
          if value + needed <= SLOTS {
            if slots[value] == 0 && slots[value + 1] == 0 && slots[value + 2] == 0 && slots[value + 3] == 0
               && slots[value + 4] == 0 && slots[value + 5] == 0 && slots[value + 6] == 0 && slots[value + 7] == 0 {
              newStart := value;
            }
          }
        }
      }
      i := i + 1;
    }
    if i == |possible| {
      assert possible[..i] == possible;
    }
  }

  lemma {:induction false} FirstFreePrefix(ps: seq<Placement>, n: nat, size: int, slots: Slots)
    requires n <= |ps|
    requires 0 <= size
    requires FirstFree(ps[..n], size, slots) != NO_START
    ensures FirstFree(ps, size, slots) == FirstFree(ps[..n], size, slots)
  {
    if n > 0 && !Fits(slots, ps[0].start, size) {
      assert ps[..n][1..] == ps[1..][..n - 1];
      FirstFreePrefix(ps[1..], n - 1, size, slots);
    }
  }

  // ---- occupied slots ----

  predicate Covers(c: Claim, i: int) {
    c.start <= i < c.start + c.size
  }

  /** All slots of the claim are marked taken. */
  predicate Marked(slots: Slots, c: Claim) {
    forall i :: 0 <= i < SLOTS && Covers(c, i) ==> slots[i] == 1
  }

  function MarkSlots(slots: Slots, start: int, size: int): (r: Slots)
    ensures forall i :: 0 <= i < SLOTS ==> r[i] == if start <= i < start + size then 1 else slots[i]
  {
    seq(SLOTS, i requires 0 <= i < SLOTS => if start <= i < start + size then 1 else slots[i])
  }

  /** The claims on one GPU, except the given pod's, as an 8-slot table. */
  function Occupied(m: ClaimMap, node: string, gpu: string, skip: string): (r: Slots)
    ensures forall i :: 0 <= i < SLOTS ==> r[i] == 0 || r[i] == 1
  {
    seq(SLOTS, i requires 0 <= i < SLOTS =>
      if exists k :: (
           && k in m && m[k].node == node && m[k].gpu == gpu
           && (skip == "" || m[k].pod != skip) && Covers(m[k], i))
      then 1 else 0)
  }

  /** An interval free in the table is apart from every claim the table marks. */
  lemma FreeIsApart(slots: Slots, a: Claim, b: Claim)
    requires InRange(a) && InRange(b)
    requires Marked(slots, b) && Fits(slots, a.start, a.size)
    ensures Apart(a, b)
  {
    if !Apart(a, b) {
      var i := if a.start <= b.start then b.start else a.start;
      assert Covers(b, i) && a.start <= i < a.start + a.size;
    }
  }

  /** buildAllocatedIndex: the table of a list of claims, one pod's claims left out. */
  method BuildAllocatedIndex(allocs: seq<Claim>, skip: string) returns (slots: Slots)
    requires forall i :: 0 <= i < |allocs| ==> InRange(allocs[i])
    ensures forall i :: 0 <= i < SLOTS ==>
      slots[i] == if exists a :: a in allocs && (skip == "" || a.pod != skip) && Covers(a, i) then 1 else 0
  {
    slots := [0, 0, 0, 0, 0, 0, 0, 0];
    var n := 0;
    while n < |allocs|
      invariant 0 <= n <= |allocs|
      invariant forall i :: 0 <= i < SLOTS ==>
        slots[i] == if exists a :: a in allocs[..n] && (skip == "" || a.pod != skip) && Covers(a, i) then 1 else 0
    {
      var ga := allocs[n];
      assert allocs[..n + 1] == allocs[..n] + [ga];
      if !(skip != "" && ga.pod == skip) {
        ghost var before := slots;
        var i := 0;
        while i < ga.size
          invariant 0 <= i <= ga.size
          invariant forall j :: 0 <= j < SLOTS ==> slots[j] == if ga.start <= j < ga.start + i then 1 else before[j]
        {
          slots := slots[ga.start + i := 1];
          i := i + 1;
        }
        assert forall j :: 0 <= j < SLOTS ==> slots[j] == if Covers(ga, j) then 1 else before[j];
      }
      n := n + 1;
    }
    assert allocs[..n] == allocs;
  }
}
