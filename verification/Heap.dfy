/** The kernel's bounded best-fit heap (kernel/heap.cc) and the user library's first-fit one
    (etan.dir/sbin/heap.c) over the blocks of HeapBlocks. */
module Heap {
  import opened Frames
  import opened HeapBlocks

  /** What malloc returns: null, or the address of an integer of the array. */
  datatype Pointer = Null | To(index: nat)

  const LARGEST := 0x7FFF_FFFF
  const CANDIDATES := 20
  const INTS_LIMIT := 0x4000_0000

  /** The block size for a request, computed in 32 bits as the code does. */
  function Ints(bytes: nat): nat
    requires bytes < 0x1_0000_0000
  {
    var ints := (bytes + 3) % 0x1_0000_0000 / 4 + 2;
    if ints < 4 then 4 else ints
  }

  /** A block made for a request holds it, exactly when the rounding up does not wrap around. */
  lemma RequestHonoured(bytes: nat)
    requires 0 < bytes < 0x1_0000_0000
    ensures 4 * (Ints(bytes) - 2) >= bytes <==> bytes < 0xFFFF_FFFD
    ensures bytes < 0xFFFF_FFFD ==> 4 * (Ints(bytes) - 2) < bytes + 8
  {
  }

  /** The bytes that malloc really looks for: a request that wraps is as good as one for eight. */
  function Wanted(bytes: nat): nat {
    if bytes < 0xFFFF_FFFD then bytes else 8
  }

  /** A block of n integers, two of them tags, is large enough for Ints exactly when it holds the bytes. */
  lemma IntsLeast(bytes: nat, n: nat)
    requires 0 < bytes < 0x1_0000_0000 && 4 <= n
    ensures Ints(bytes) <= n <==> Wanted(bytes) <= 4 * (n - 2)
  {
  }

  lemma RequestWraps()
    ensures Ints(0xFFFF_FFFD) == 4 && 4 * (Ints(0xFFFF_FFFD) - 2) == 8
  {
  }

  // ---------- which block malloc picks ----------

  ghost predicate Fits(blk: Blocks, free: seq<nat>, need: nat, k: nat) {
    k < |free| && free[k] in blk && blk[free[k]] >= need
  }

  /** How many of the first k available blocks fit. */
  ghost function Fitting(blk: Blocks, free: seq<nat>, need: nat, k: nat): nat {
    if k == 0 then 0 else Fitting(blk, free, need, k - 1) + (if Fits(blk, free, need, k - 1) then 1 else 0)
  }

  lemma {:induction false} FittingGrows(blk: Blocks, free: seq<nat>, need: nat, j: nat, k: nat)
    requires j <= k
    ensures Fitting(blk, free, need, j) <= Fitting(blk, free, need, k)
    ensures j < k && Fits(blk, free, need, k - 1) ==> Fitting(blk, free, need, j) < Fitting(blk, free, need, k)
  {
    if j < k {
      FittingGrows(blk, free, need, j, k - 1);
    }
  }

  /** Block k is, of the first 20 that fit among the first n, the earliest of the smallest. */
  ghost predicate IsBest(blk: Blocks, free: seq<nat>, need: nat, k: nat, n: nat) {
    && k < n && Fits(blk, free, need, k) && Fitting(blk, free, need, k + 1) <= CANDIDATES
    && forall j :: 0 <= j < n && Fits(blk, free, need, j) && Fitting(blk, free, need, j + 1) <= CANDIDATES ==>
      NoWorse(blk, free, k, j)
  }

  ghost predicate NoWorse(blk: Blocks, free: seq<nat>, k: nat, j: nat) {
    && k < |free| && j < |free| && free[k] in blk && free[j] in blk
    && (if j < k then blk[free[k]] < blk[free[j]] else blk[free[k]] <= blk[free[j]])
  }

  ghost predicate IsFirst(blk: Blocks, free: seq<nat>, need: nat, k: nat) {
    Fits(blk, free, need, k) && forall j :: 0 <= j < k ==> !Fits(blk, free, need, j)
  }

  /** The search stops after the 20th fit; nothing behind it counts. */
  lemma BestSoFar(blk: Blocks, free: seq<nat>, need: nat, k: nat, n: nat)
    requires IsBest(blk, free, need, k, n) && n <= |free| && Fitting(blk, free, need, n) == CANDIDATES
    ensures IsBest(blk, free, need, k, |free|)
  {
    forall j | 0 <= j < |free| && Fits(blk, free, need, j) && Fitting(blk, free, need, j + 1) <= CANDIDATES
      ensures NoWorse(blk, free, k, j)
    {
      if j >= n {
        FittingGrows(blk, free, need, n, j + 1);
      }
    }
  }

  // ---------- the same in bytes ----------

  /** Available block j holds so many bytes between its tags. */
  ghost predicate Roomy(blk: Blocks, free: seq<nat>, bytes: nat, j: nat) {
    j < |free| && free[j] in blk && 4 * (blk[free[j]] - 2) >= bytes
  }

  ghost function Earlier(blk: Blocks, free: seq<nat>, bytes: nat, j: nat): set<nat> {
    set i | 0 <= i < j && Roomy(blk, free, bytes, i)
  }

  /** Block k is the smallest of the first twenty that hold so many bytes, and the earliest of its size. */
  ghost predicate Chosen(blk: Blocks, free: seq<nat>, bytes: nat, k: nat) {
    && Roomy(blk, free, bytes, k) && |Earlier(blk, free, bytes, k)| < 20
    && forall j: nat :: Roomy(blk, free, bytes, j) && |Earlier(blk, free, bytes, j)| < 20 ==>
      blk[free[k]] <= blk[free[j]] && (j < k ==> blk[free[k]] < blk[free[j]])
  }

  ghost predicate IsEarliest(blk: Blocks, free: seq<nat>, bytes: nat, k: nat) {
    Roomy(blk, free, bytes, k) && forall j :: 0 <= j < k ==> !Roomy(blk, free, bytes, j)
  }

  lemma FitsIsRoomy(a: seq<int>, blk: Blocks, free: seq<nat>, avail: nat, bytes: nat, j: nat)
    requires Valid(a, blk, free, avail) && 0 < bytes < 0x1_0000_0000
    ensures Fits(blk, free, Ints(bytes), j) <==> Roomy(blk, free, Wanted(bytes), j)
  {
    hide Ok;
    if j < |free| {
      NodeFacts(a, blk, free, {}, avail, j);
      IntsLeast(bytes, blk[free[j]]);
    }
  }

  lemma AllRoomy(a: seq<int>, blk: Blocks, free: seq<nat>, avail: nat, bytes: nat)
    requires Valid(a, blk, free, avail) && 0 < bytes < 0x1_0000_0000
    ensures forall j :: Fits(blk, free, Ints(bytes), j) <==> Roomy(blk, free, Wanted(bytes), j)
  {
    hide Ok, Fits, Roomy;
    forall j ensures Fits(blk, free, Ints(bytes), j) <==> Roomy(blk, free, Wanted(bytes), j) {
      FitsIsRoomy(a, blk, free, avail, bytes, j);
    }
  }

  lemma {:induction false} FittingIsEarlier(a: seq<int>, blk: Blocks, free: seq<nat>, avail: nat, bytes: nat, j: nat)
    requires Valid(a, blk, free, avail) && 0 < bytes < 0x1_0000_0000
    ensures Fitting(blk, free, Ints(bytes), j) == |Earlier(blk, free, Wanted(bytes), j)|
  {
    hide Ok, Fits, Roomy;
    if j > 0 {
      FittingIsEarlier(a, blk, free, avail, bytes, j - 1);
      FitsIsRoomy(a, blk, free, avail, bytes, j - 1);
      EarlierGrows(blk, free, Wanted(bytes), j - 1);
    }
  }

  lemma EarlierGrows(blk: Blocks, free: seq<nat>, bytes: nat, j: nat)
    ensures |Earlier(blk, free, bytes, j + 1)| ==
      |Earlier(blk, free, bytes, j)| + (if Roomy(blk, free, bytes, j) then 1 else 0)
  {
    hide Roomy;
    var e := Earlier(blk, free, bytes, j);
    assert Earlier(blk, free, bytes, j + 1) == if Roomy(blk, free, bytes, j) then e + {j} else e;
  }

  /** The choice among the blocks that fit is the choice among those that hold the bytes. */
  lemma BestIsChosen(a: seq<int>, blk: Blocks, free: seq<nat>, avail: nat, bytes: nat, k: nat)
    requires Valid(a, blk, free, avail) && 0 < bytes < 0x1_0000_0000
    requires IsBest(blk, free, Ints(bytes), k, |free|)
    ensures Chosen(blk, free, Wanted(bytes), k)
  {
    hide Ok, Fits, Roomy, Earlier, Fitting;
    var need, w := Ints(bytes), Wanted(bytes);
    AllRoomy(a, blk, free, avail, bytes);
    EarlierOf(a, blk, free, avail, bytes, k);
    forall j: nat | Roomy(blk, free, w, j) && |Earlier(blk, free, w, j)| < 20
      ensures j < |free| && NoWorse(blk, free, k, j)
    {
      EarlierOf(a, blk, free, avail, bytes, j);
      RoomyListed(blk, free, w, j);
    }
  }

  lemma EarlierOf(a: seq<int>, blk: Blocks, free: seq<nat>, avail: nat, bytes: nat, j: nat)
    requires Valid(a, blk, free, avail) && 0 < bytes < 0x1_0000_0000 && Fits(blk, free, Ints(bytes), j)
    ensures Fitting(blk, free, Ints(bytes), j + 1) <= CANDIDATES <==> |Earlier(blk, free, Wanted(bytes), j)| < 20
  {
    hide Ok, Fits;
    FittingIsEarlier(a, blk, free, avail, bytes, j);
  }

  lemma RoomyListed(blk: Blocks, free: seq<nat>, bytes: nat, j: nat)
    requires Roomy(blk, free, bytes, j)
    ensures j < |free|
  {
  }

  // ---------- the result of malloc and free ----------

  /** Available block k has been taken, and what it did not need was split off. */
  ghost predicate Allotted(blk: Blocks, free: seq<nat>, blk': Blocks, free': seq<nat>, k: nat, need: nat) {
    && k < |free| && free[k] in blk && blk[free[k]] >= need
    && if blk[free[k]] - need >= 4
       then blk' == Cut(blk, free[k], need) && free' == [free[k] + need] + Without(free, k)
       else blk' == blk && free' == Without(free, k)
  }

  /** The extent of the available block that freeing idx produces. */
  ghost predicate FreedRange(blk: Blocks, free: seq<nat>, idx: nat, lo: nat, hi: nat) {
    && idx in blk
    && (if lo == idx then forall p :: EndsAt(blk, p, idx) ==> p !in free else EndsAt(blk, lo, idx) && lo in free)
    && var r := idx + blk[idx];
       if r in free then r in blk && hi == r + blk[r] else hi == r
  }

  /** The blocks from lo up to hi are now one available block, first in the list. */
  ghost predicate Coalesced(blk: Blocks, free: seq<nat>, blk': Blocks, free': seq<nat>, lo: nat, hi: nat) {
    && lo < hi && lo in blk' && blk'[lo] == hi - lo && free' != [] && free'[0] == lo
    && (forall b :: b in blk' <==> b in blk && !(lo < b < hi))
    && (forall b :: b in blk' && b != lo ==> blk'[b] == blk[b])
    && (forall b :: b in free' <==> b == lo || (b in free && !(lo <= b < hi)))
  }

  /** Blocks handed out and not yet freed. */
  ghost predicate LiveBlock(a: seq<int>, blk: Blocks, free: seq<nat>, b: nat) {
    b in blk && b !in free && !Sentinel(a, b)
  }

  class Heap {
    const words: array<int>
    var avail: nat
    ghost var blk: Blocks
    ghost var free: seq<nat>

    ghost predicate Inv()
      reads this, words
    {
      words.Length < INTS_LIMIT && Valid(words[..], blk, free, avail)
    }

    ghost predicate Working(raw: set<nat>)
      reads this, words
    {
      words.Length < INTS_LIMIT && Ok(words[..], blk, free, raw, avail)
    }

    /** heapInit: one available block between two sentinels, whatever the memory held before. */
    constructor (base: array<int>)
      requires 8 <= base.Length < INTS_LIMIT
      modifies base
      ensures Inv() && words == base
      ensures blk == map[0 := 2, 2 := base.Length - 4, base.Length - 2 := 2] && free == [2]
    {
      words := base;
      avail := 0;
      new;
      var len := words.Length;
      MakeTaken(0, 2);
      MakeAvail(2, len - 4);
      MakeTaken(len - 2, 2);
      blk := map[0 := 2, 2 := len - 4, len - 2 := 2];
      free := [2];
      FreshHeap(words[..], blk);
    }

    method MakeTaken(i: nat, ints: nat)
      requires 0 < ints && i + ints <= words.Length
      modifies words
      ensures words[..] == Tagged(old(words[..]), i, ints, -(ints as int))
    {
      words[i] := -(ints as int);
      words[i + ints - 1] := -(ints as int);
    }

    method MakeAvail(i: nat, ints: nat)
      requires 4 <= ints && i + ints <= words.Length && (avail == 0 || avail + 2 < words.Length)
      modifies this`avail, words
      ensures words[..] == Pushed(old(words[..]), i, ints, old(avail)) && avail == i
    {
      words[i] := ints;
      words[i + ints - 1] := ints;
      words[i + 1] := avail;
      words[i + 2] := 0;
      if avail != 0 {
        words[avail + 2] := i;
      }
      avail := i;
    }

    /** remove: block i, entry k of the list, is unlinked and becomes one being worked on. */
    method Remove(i: nat, ghost k: nat, ghost raw: set<nat>)
      requires Working(raw) && k < |free| && free[k] == i && i + 2 < words.Length
      modifies this`avail, this`free, words
      ensures words[..] == Unlinked(old(words[..]), i) && free == Without(old(free), k)
      ensures Working(raw + {i}) && PayloadKept(old(words[..]), words[..], blk, old(free), raw)
    {
      hide Ok;
      RemoveOk(words[..], blk, free, raw, avail, k);
      NodeFacts(words[..], blk, free, raw, avail, k);
      UnlinkedAt(words[..], blk, free, raw, avail, k);
      ListHead(words[..], blk, free, raw, avail);
      if k > 0 {
        NodeFacts(words[..], blk, free, raw, avail, k - 1);
      }
      if k + 1 < |free| {
        NodeFacts(words[..], blk, free, raw, avail, k + 1);
      }
      var prevIndex, nextIndex := words[i + 2], words[i + 1];
      if prevIndex == 0 {
        avail := nextIndex;
      } else {
        words[prevIndex + 1] := nextIndex;
      }
      if nextIndex != 0 {
        words[nextIndex + 2] := prevIndex;
      }
      free := Without(free, k);
    }

    /** The end of malloc: block it, which has mx integers, is taken and split if enough is left over. */
    method Allot(it: nat, mx: nat, ints: nat, ghost k: nat)
      requires Inv() && k < |free| && it == free[k] && it in blk && mx == blk[it] && 4 <= ints <= mx
      modifies this, words
      ensures Inv() && Allotted(old(blk), old(free), blk, free, k, ints)
      ensures PayloadKept(old(words[..]), words[..], old(blk), old(free), {})
    {
      hide Ok, PayloadKept, NoNeighbours, Unlinked, Pushed, Tagged;
      ghost var a0, blk0, free0 := words[..], blk, free;
      NodeFacts(a0, blk, free, {}, avail, k);
      Remove(it, k, {});
      ghost var a1, free1 := words[..], free;
      RemovedNoNeighbours(a0, blk0, free0, old(avail), k);
      assert {} + {it} == {it};
      var extra := mx - ints;
      if extra >= 4 {
        CutOk(a1, blk, free, {it}, avail, it, ints);
        assert {it} + {it + ints} == {it, it + ints} && {it, it + ints} - {it} == {it + ints};
        blk := Cut(blk, it, ints);
        TakenOk(a1, blk, free, {it, it + ints}, avail, it);
        MakeTaken(it, ints);
        ghost var a2 := words[..];
        ListHead(a2, blk, free, {it + ints}, avail);
        NodeInRange(a2, blk, free, {it + ints}, avail);
        PushedOk(a2, blk, free, {it + ints}, avail, it + ints);
        MakeAvail(it + ints, extra);
        free := [it + ints] + free;
        assert {it + ints} - {it + ints} == {};
        AllotKept(a0, a1, a2, words[..], blk0, blk, free0, free1, k, ints);
        CutNoNeighbours(a0, blk0, free0, old(avail), k, ints);
      } else {
        TakenOk(a1, blk, free, {it}, avail, it);
        MakeTaken(it, mx);
        assert {it} - {it} == {};
        KeptTwice(a0, a1, words[..], blk, free0, free1, k);
      }
    }

    /** malloc of the kernel: the earliest smallest of the first 20 blocks that fit. */
    method Malloc(bytes: nat) returns (r: Pointer, ghost k: nat)
      requires Inv() && bytes < 0x1_0000_0000
      modifies this, words
      ensures Inv() && PayloadKept(old(words[..]), words[..], old(blk), old(free), {})
      ensures bytes == 0 ==> r == To(0)
      ensures bytes != 0 ==> (r == Null <==> forall j :: 0 <= j < old(|free|) ==>
          !Fits(old(blk), old(free), Ints(bytes), j))
      ensures bytes != 0 ==> (r == Null <==> forall j :: 0 <= j < old(|free|) ==>
          !Roomy(old(blk), old(free), Wanted(bytes), j))
      ensures bytes == 0 || r == Null ==> blk == old(blk) && free == old(free) && words[..] == old(words[..])
      ensures bytes != 0 && r != Null ==>
        && IsBest(old(blk), old(free), Ints(bytes), k, old(|free|))
        && Chosen(old(blk), old(free), Wanted(bytes), k)
        && r == To(old(free)[k] + 1) && Allotted(old(blk), old(free), blk, free, k, Ints(bytes))
    {
      hide Ok, PayloadKept, NoNeighbours, Allotted, Roomy, Chosen;
      k := 0;
      KeptSelf(words[..], blk, free);
      if bytes == 0 {
        return To(0), 0;
      }
      var ints := Ints(bytes);
      AllRoomy(words[..], blk, free, avail, bytes);
      var mx := LARGEST;
      var it := 0;
      var countDown := CANDIDATES;
      ListHead(words[..], blk, free, {}, avail);
      var p: int := avail;
      ghost var m := 0;
      while p != 0
        invariant m <= |free| && p == At(free, m) && (p == 0 <==> m == |free|)
        invariant 0 < countDown && countDown == CANDIDATES - Fitting(blk, free, ints, m)
        invariant if it == 0 then mx == LARGEST && forall j :: 0 <= j < m ==> !Fits(blk, free, ints, j)
                  else k < |free| && it == free[k] && it in blk && mx == blk[it] && IsBest(blk, free, ints, k, m)
        invariant Inv() && blk == old(blk) && free == old(free) && words[..] == old(words[..]) && avail == old(avail)
        invariant it == 0 || mx < INTS_LIMIT
        decreases |free| - m
      {
        NodeFacts(words[..], blk, free, {}, avail, m);
        SizesBounded(words[..], blk, free, avail, m);
        assert words[p] > 0;
        var sz := words[p];
        NextBest(blk, free, ints, k, m, it != 0);
        if sz >= ints {
          if sz < mx {
            mx := sz;
            it := p;
            k := m;
          }
          countDown := countDown - 1;
          if countDown == 0 {
            BestSoFar(blk, free, ints, k, m + 1);
            break;
          }
        }
        p := words[p + 1];
        m := m + 1;
      }
      if it != 0 {
        assert Fits(blk, free, ints, k);
        BestIsChosen(words[..], blk, free, avail, bytes, k);
        Allot(it, mx, ints, k);
        return To(it + 1), k;
      }
      return Null, k;
    }

    /** malloc of the user library: the first block that fits. */
    method MallocFirstFit(bytes: nat) returns (r: Pointer, ghost k: nat)
      requires Inv() && bytes < 0x1_0000_0000
      modifies this, words
      ensures Inv() && PayloadKept(old(words[..]), words[..], old(blk), old(free), {})
      ensures bytes == 0 ==> r == To(0)
      ensures bytes != 0 ==> (r == Null <==> forall j :: 0 <= j < old(|free|) ==>
          !Fits(old(blk), old(free), Ints(bytes), j))
      ensures bytes != 0 ==> (r == Null <==> forall j :: 0 <= j < old(|free|) ==>
          !Roomy(old(blk), old(free), Wanted(bytes), j))
      ensures bytes == 0 || r == Null ==> blk == old(blk) && free == old(free) && words[..] == old(words[..])
      ensures bytes != 0 && r != Null ==>
        && IsFirst(old(blk), old(free), Ints(bytes), k) && IsEarliest(old(blk), old(free), Wanted(bytes), k)
        && r == To(old(free)[k] + 1) && Allotted(old(blk), old(free), blk, free, k, Ints(bytes))
    {
      hide Ok, PayloadKept, NoNeighbours, Allotted, Roomy, Chosen;
      k := 0;
      KeptSelf(words[..], blk, free);
      if bytes == 0 {
        return To(0), 0;
      }
      var ints := Ints(bytes);
      AllRoomy(words[..], blk, free, avail, bytes);
      ListHead(words[..], blk, free, {}, avail);
      var p: int := avail;
      while p != 0
        invariant Inv() && blk == old(blk) && free == old(free) && words[..] == old(words[..]) && avail == old(avail)
        invariant k <= |free| && p == At(free, k) && (p == 0 <==> k == |free|)
        invariant forall j :: 0 <= j < k ==> !Fits(blk, free, ints, j)
        decreases |free| - k
      {
        NodeFacts(words[..], blk, free, {}, avail, k);
        var sz := words[p];
        if sz >= ints {
          assert Fits(blk, free, ints, k);
          Allot(p, sz, ints, k);
          return To(p + 1), k;
        }
        p := words[p + 1];
        k := k + 1;
      }
      return Null, k;
    }

    /** The left half of free: an available left neighbour is merged into the block being freed. */
    method MergeLeft(idx: nat) returns (lo: nat)
      requires Working({idx}) && idx in blk && !Sentinel(words[..], idx) && NoNeighbours(blk, free)
      modifies this, words
      ensures Working({lo}) && lo in blk && !Sentinel(words[..], lo) && NoNeighbours(blk, free)
      ensures MergedLeft(old(blk), old(free), blk, free, idx, lo)
      ensures PayloadKept(old(words[..]), words[..], old(blk), old(free), {idx})
    {
      hide Ok, PayloadKept, NoNeighbours, Unlinked, Joined;
      ghost var a0 := words[..];
      LeftNeighbour(a0, blk, free, {idx}, avail, idx);
      var left := idx - (if words[idx - 1] < 0 then -words[idx - 1] else words[idx - 1]);
      if words[left] > 0 {
        ghost var k :| 0 <= k < |free| && free[k] == left;
        NodeFacts(a0, blk, free, {idx}, avail, k);
        LeftMerged(a0, blk, free, {idx}, avail, idx, left, k);
        ghost var blk0, free0 := blk, free;
        Remove(left, k, {idx});
        assert {idx} + {left} - {idx} == {left};
        JoinOk(words[..], blk, free, {idx} + {left}, avail, left);
        blk := Joined(blk, left);
        return left;
      }
      KeptRaw(a0, blk, free, {idx}, avail);
      LeftUnmerged(a0, blk, free, {idx}, avail, idx, left);
      return idx;
    }

    /** The right half of free. */
    method MergeRight(lo: nat, sz: nat) returns (n: nat)
      requires Working({lo}) && lo in blk && !Sentinel(words[..], lo) && NoNeighbours(blk, free) && sz == blk[lo]
      requires forall p :: EndsAt(blk, p, lo) ==> p !in free
      modifies this, words
      ensures Working({lo}) && lo in blk && n == blk[lo] && MergedRight(old(blk), old(free), blk, free, lo)
      ensures PayloadKept(old(words[..]), words[..], old(blk), old(free), {lo})
    {
      hide Ok, PayloadKept, NoNeighbours, Unlinked, Joined;
      ghost var a0 := words[..];
      RightNeighbour(a0, blk, free, {lo}, avail, lo);
      var right := lo + sz;
      if words[right] > 0 {
        ghost var k :| 0 <= k < |free| && free[k] == right;
        NodeFacts(a0, blk, free, {lo}, avail, k);
        var m := words[right];
        RightMerged(a0, blk, free, {lo}, avail, lo, k);
        Remove(right, k, {lo});
        assert {lo} + {right} - {right} == {lo};
        JoinOk(words[..], blk, free, {lo} + {right}, avail, lo);
        blk := Joined(blk, lo);
        return sz + m;
      }
      KeptRaw(a0, blk, free, {lo}, avail);
      RightUnmerged(a0, blk, free, {lo}, avail, lo);
      return sz;
    }

    /** free: the block and its available neighbours become one available block at the head of the
        list; a block that is already available panics. */
    method Free(p: Pointer) returns (o: Outcome<()>)
      requires Inv() && (p.To? && p.index != 0 ==> p.index - 1 in blk && !Sentinel(words[..], p.index - 1))
      modifies this, words
      ensures o.Panicked? <==> p.To? && p.index != 0 && p.index - 1 in old(free)
      ensures Inv()
      ensures o.Panicked? || p == Null || p == To(0) ==>
          blk == old(blk) && free == old(free) && words[..] == old(words[..])
      ensures o.Running? && p.To? && p.index != 0 ==>
        && PayloadKept(old(words[..]), words[..], old(blk), old(free), {p.index - 1})
        && exists lo, hi ::
            FreedRange(old(blk), old(free), p.index - 1, lo, hi) && Coalesced(old(blk), old(free), blk, free, lo, hi)
    {
      hide Ok, PayloadKept, NoNeighbours, Pushed;
      if p == Null || p == To(0) {
        return Running(());
      }
      var idx := p.index - 1;
      ghost var a0, blk0, free0 := words[..], blk, free;
      BlockState(a0, blk, free, avail, idx);
      if !(words[idx] < 0) {
        return Panicked;
      }
      var sz := -words[idx];
      OpenBlock(a0, blk, free, {}, avail, idx);
      assert {} + {idx} == {idx};
      var lo := MergeLeft(idx);
      ghost var a1, blk1, free1 := words[..], blk, free;
      var n := MergeRight(lo, sz + (idx - lo));
      ghost var a2, blk2, free2 := words[..], blk, free;
      NodeInRange(a2, blk2, free2, {lo}, avail);
      PushedOk(a2, blk2, free2, {lo}, avail, lo);
      MakeAvail(lo, n);
      free := [lo] + free;
      assert {lo} - {lo} == {};
      FreeDone(a0, blk0, free0, old(avail), blk1, free1, blk2, free2, idx, lo);
      FreeKept(a0, a1, a2, words[..], blk0, free0, blk1, free1, blk2, free2, idx, lo);
      return Running(());
    }

    /** A client writes into the payload of a block it was given. */
    method Store(i: nat, x: int, ghost b: nat)
      requires Inv() && LiveBlock(words[..], blk, free, b) && b < i < b + blk[b] - 1 && i < words.Length
      modifies words
      ensures Inv() && words[..] == old(words[..])[i := x]
      ensures PayloadKept(old(words[..]), words[..], blk, free, {b})
    {
      BlockState(words[..], blk, free, avail, b);
      ClientStore(words[..], blk, free, avail, b, i, x);
      words[i] := x;
    }

    /** Freeing every live block, in any order, leaves one available block between the sentinels. */
    method FreeAll(order: seq<nat>)
      requires Inv() && forall b :: b in order <==> LiveBlock(words[..], blk, free, b)
      requires forall i, j :: 0 <= i < j < |order| ==> order[i] != order[j]
      modifies this, words
      ensures Inv() && free == [2] && blk == map[0 := 2, 2 := words.Length - 4, words.Length - 2 := 2]
    {
      hide Valid, PayloadKept;
      var i := 0;
      while i < |order|
        invariant i <= |order| && Inv()
        invariant forall b :: b in order[i..] <==> LiveBlock(words[..], blk, free, b)
      {
        ghost var a0, blk0, free0 := words[..], blk, free;
        assert order[i] in order[i..];
        var o := Free(To(order[i] + 1));
        ghost var lo, hi :| FreedRange(blk0, free0, order[i], lo, hi) && Coalesced(blk0, free0, blk, free, lo, hi);
        LiveAfterFree(a0, blk0, free0, blk, free, order[i], lo, hi, words[..]);
        assert order[i..] == [order[i]] + order[i + 1..];
        i := i + 1;
      }
      EverythingFree(words[..], blk, free, avail);
    }
  }

  // ---------- facts the methods need ----------

  lemma FreshHeap(a: seq<int>, blk: Blocks)
    requires |a| >= 8 && blk == map[0 := 2, 2 := |a| - 4, |a| - 2 := 2]
    requires a[0] == -2 && a[1] == -2 && a[|a| - 2] == -2 && a[|a| - 1] == -2
    requires a[2] == |a| - 4 && a[|a| - 3] == |a| - 4 && a[3] == 0 && a[4] == 0
    ensures Valid(a, blk, [2], 2)
  {
    assert EndsAt(blk, 0, 2) && EndsAt(blk, 2, |a| - 2);
  }

  lemma NodeInRange(a: seq<int>, blk: Blocks, free: seq<nat>, raw: set<nat>, avail: nat)
    requires Ok(a, blk, free, raw, avail)
    ensures avail == 0 || avail + 2 < |a|
  {
    ListHead(a, blk, free, raw, avail);
    if avail != 0 {
      NodeFacts(a, blk, free, raw, avail, 0);
    }
  }

  lemma SizesBounded(a: seq<int>, blk: Blocks, free: seq<nat>, avail: nat, k: nat)
    requires Valid(a, blk, free, avail) && k < |free|
    ensures free[k] in blk && blk[free[k]] < |a|
  {
    NodeFacts(a, blk, free, {}, avail, k);
  }

  lemma KeptSelf(a: seq<int>, blk: Blocks, free: seq<nat>)
    requires exists avail :: Ok(a, blk, free, {}, avail)
    ensures PayloadKept(a, a, blk, free, {})
  {
    var avail :| Ok(a, blk, free, {}, avail);
    forall b {:trigger SamePayload(a, a, b, blk[b])} | b in blk && b !in free ensures SamePayload(a, a, b, blk[b]) {
      assert TagOk(a, blk, free, b);
    }
  }

  lemma KeptTwice(a0: seq<int>, a1: seq<int>, a2: seq<int>, blk: Blocks, free: seq<nat>, free1: seq<nat>, k: nat)
    requires k < |free| && free1 == Without(free, k) && PayloadKept(a0, a1, blk, free, {})
    requires PayloadKept(a1, a2, blk, free1, {free[k]})
    ensures PayloadKept(a0, a2, blk, free, {})
  {
    forall b {:trigger SamePayload(a0, a2, b, blk[b])} | b in blk && b !in free ensures SamePayload(a0, a2, b, blk[b]) {
      InWithout(free, k, b);
      assert SamePayload(a0, a1, b, blk[b]) && SamePayload(a1, a2, b, blk[b]);
    }
  }

  lemma AllotKept(a0: seq<int>, a1: seq<int>, a2: seq<int>, a3: seq<int>, blk: Blocks, blk1: Blocks,
                  free: seq<nat>, free1: seq<nat>, k: nat, n: nat)
    requires k < |free| && free[k] in blk && n <= blk[free[k]] && free1 == Without(free, k)
    requires blk1 == Cut(blk, free[k], n)
    requires free[k] + n !in blk
    requires PayloadKept(a0, a1, blk, free, {}) && PayloadKept(a1, a2, blk1, free1, {free[k], free[k] + n})
    requires PayloadKept(a2, a3, blk1, free1, {free[k] + n})
    ensures PayloadKept(a0, a3, blk, free, {})
  {
    forall b {:trigger SamePayload(a0, a3, b, blk[b])} | b in blk && b !in free ensures SamePayload(a0, a3, b, blk[b]) {
      InWithout(free, k, b);
      assert blk1[b] == blk[b];
      assert SamePayload(a0, a1, b, blk[b]) && SamePayload(a1, a2, b, blk1[b]) && SamePayload(a2, a3, b, blk1[b]);
    }
  }

  lemma RemovedNoNeighbours(a: seq<int>, blk: Blocks, free: seq<nat>, avail: nat, k: nat)
    requires Valid(a, blk, free, avail) && k < |free|
    ensures NoNeighbours(blk, Without(free, k))
  {
    WithoutIn(free, k);
  }

  lemma WithoutIn(free: seq<nat>, k: nat)
    requires k < |free|
    ensures forall b :: b in Without(free, k) ==> b in free
  {
  }

  /** The rest split off an available block has no available neighbour. */
  lemma CutNoNeighbours(a: seq<int>, blk: Blocks, free: seq<nat>, avail: nat, k: nat, n: nat)
    requires Valid(a, blk, free, avail) && k < |free| && free[k] in blk && 4 <= n && n + 4 <= blk[free[k]]
    ensures NoNeighbours(Cut(blk, free[k], n), [free[k] + n] + Without(free, k))
  {
    var it, blk', free' := free[k], Cut(blk, free[k], n), [free[k] + n] + Without(free, k);
    NodeFacts(a, blk, free, {}, avail, k);
    ListedOnce(a, blk, free, {}, avail);
    forall b | b in blk' && b in free' ensures b + blk'[b] !in free' {
      CutNeighbour(a, blk, free, avail, k, n, b);
    }
  }

  lemma CutNeighbour(a: seq<int>, blk: Blocks, free: seq<nat>, avail: nat, k: nat, n: nat, b: nat)
    requires Valid(a, blk, free, avail) && k < |free| && free[k] in blk && 4 <= n && n + 4 <= blk[free[k]]
    requires b in Cut(blk, free[k], n) && b in [free[k] + n] + Without(free, k)
    ensures b + Cut(blk, free[k], n)[b] !in [free[k] + n] + Without(free, k)
  {
    hide TagOk;
    var it := free[k];
    assert ExtentOk(a, blk, it);
    assert it + n in blk ==> Apart(blk, it, it + n);
    ListedOnce(a, blk, free, {}, avail);
    assert it !in Without(free, k);
    WithoutIn(free, k);
    if b != it + n {
      assert b in Without(free, k) && b in free && b in blk && b != it;
      assert ExtentOk(a, blk, b);
      assert b < it ==> Apart(blk, b, it);
      assert it < b ==> Apart(blk, it, b);
    }
  }

  /** One more block has been looked at. */
  lemma NextBest(blk: Blocks, free: seq<nat>, need: nat, k: nat, m: nat, found: bool)
    requires m < |free| && free[m] in blk && Fitting(blk, free, need, m) < CANDIDATES
    requires if found then IsBest(blk, free, need, k, m) else forall j :: 0 <= j < m ==> !Fits(blk, free, need, j)
    ensures !Fits(blk, free, need, m) ==>
      if found then IsBest(blk, free, need, k, m + 1) else forall j :: 0 <= j < m + 1 ==> !Fits(blk, free, need, j)
    ensures Fits(blk, free, need, m) ==>
      if found && blk[free[k]] <= blk[free[m]] then IsBest(blk, free, need, k, m + 1)
      else IsBest(blk, free, need, m, m + 1)
  {
    if Fits(blk, free, need, m) && !(found && blk[free[k]] <= blk[free[m]]) {
      forall j | 0 <= j < m + 1 && Fits(blk, free, need, j) && Fitting(blk, free, need, j + 1) <= CANDIDATES
        ensures NoWorse(blk, free, m, j)
      {
        if j < m {
          assert NoWorse(blk, free, k, j);
        }
      }
    }
  }

  // ---------- free ----------

  /** idx has absorbed its left neighbour if that was available. */
  ghost predicate MergedLeft(blk: Blocks, free: seq<nat>, blk1: Blocks, free1: seq<nat>, idx: nat, lo: nat) {
    && idx in blk && (forall p :: EndsAt(blk1, p, lo) ==> p !in free1)
    && if lo == idx then blk1 == blk && free1 == free
       else
         && lo < idx && EndsAt(blk, lo, idx) && lo in free
         && blk1 == (blk - {idx})[lo := blk[lo] + blk[idx]]
         && (forall b :: b in free1 <==> b in free && b != lo)
  }

  /** lo has absorbed its right neighbour if that was available. */
  ghost predicate MergedRight(blk: Blocks, free: seq<nat>, blk1: Blocks, free1: seq<nat>, lo: nat) {
    && lo in blk
    && var r := lo + blk[lo];
       if r in free then
         && r in blk && blk1 == (blk - {r})[lo := blk[lo] + blk[r]] && lo in blk1 && lo + blk1[lo] !in free1
         && (forall b :: b in free1 <==> b in free && b != r)
       else blk1 == blk && free1 == free
  }

  /** The integer before a block is the footer of its left neighbour. */
  lemma LeftNeighbour(a: seq<int>, blk: Blocks, free: seq<nat>, raw: set<nat>, avail: nat, b: nat)
    requires Ok(a, blk, free, raw, avail) && b in blk && !Sentinel(a, b) && raw == {b}
    ensures 0 < b < |a| && Abs(a[b - 1]) <= b
    ensures var left := b - Abs(a[b - 1]);
            EndsAt(blk, left, b) && left < |a| && (a[left] > 0 <==> left in free) && !(a[left] > 0 && Sentinel(a, left))
    ensures forall p :: EndsAt(blk, p, b) ==> p == b - Abs(a[b - 1])
  {
    assert ExtentOk(a, blk, b);
    var p :| EndsAt(blk, p, b);
    assert ExtentOk(a, blk, p) && TagOk(a, blk, free, p);
    forall q | EndsAt(blk, q, b) ensures q == p {
      assert ExtentOk(a, blk, q);
      assert q < p ==> Apart(blk, q, p);
      assert p < q ==> Apart(blk, p, q);
    }
    if p in free {
      var k :| 0 <= k < |free| && free[k] == p;
      assert NodeOk(a, blk, free, raw, k);
    }
  }

  lemma RightNeighbour(a: seq<int>, blk: Blocks, free: seq<nat>, raw: set<nat>, avail: nat, b: nat)
    requires Ok(a, blk, free, raw, avail) && b in blk && !Sentinel(a, b) && raw == {b}
    ensures b + blk[b] < |a| && b + blk[b] in blk && (a[b + blk[b]] > 0 <==> b + blk[b] in free) && blk[b] >= 4
  {
    assert ExtentOk(a, blk, b) && ExtentOk(a, blk, |a| - 2);
    assert b < |a| - 2 ==> Apart(blk, b, |a| - 2);
    assert ExtentOk(a, blk, b + blk[b]) && TagOk(a, blk, free, b + blk[b]);
  }

  lemma BlockState(a: seq<int>, blk: Blocks, free: seq<nat>, avail: nat, b: nat)
    requires Valid(a, blk, free, avail) && b in blk && !Sentinel(a, b)
    ensures b < |a| && blk[b] >= 4 && b + blk[b] < |a|
    ensures if b in free then a[b] > 0 else a[b] == -(blk[b] as int)
  {
    assert ExtentOk(a, blk, b) && TagOk(a, blk, free, b) && ExtentOk(a, blk, |a| - 2);
    assert b < |a| - 2 ==> Apart(blk, b, |a| - 2);
  }

  lemma KeptRaw(a: seq<int>, blk: Blocks, free: seq<nat>, raw: set<nat>, avail: nat)
    requires Ok(a, blk, free, raw, avail)
    ensures PayloadKept(a, a, blk, free, raw)
  {
    forall b {:trigger SamePayload(a, a, b, blk[b])} | b in blk && b !in free && b !in raw
      ensures SamePayload(a, a, b, blk[b])
    {
      assert TagOk(a, blk, free, b);
    }
  }

  lemma LeftUnmerged(a: seq<int>, blk: Blocks, free: seq<nat>, raw: set<nat>, avail: nat, idx: nat, left: nat)
    requires Ok(a, blk, free, raw, avail) && idx in blk && left !in free
    requires forall p :: EndsAt(blk, p, idx) ==> p == left
    ensures MergedLeft(blk, free, blk, free, idx, idx)
  {
  }

  lemma LeftMerged(a: seq<int>, blk: Blocks, free: seq<nat>, raw: set<nat>, avail: nat, idx: nat, left: nat, k: nat)
    requires Ok(a, blk, free, raw, avail) && raw == {idx} && idx in blk && !Sentinel(a, idx) && NoNeighbours(blk, free)
    requires EndsAt(blk, left, idx) && k < |free| && free[k] == left
    ensures var blk1, free1 := Joined(blk, left), Without(free, k);
            MergedLeft(blk, free, blk1, free1, idx, left) && NoNeighbours(blk1, free1) && left in blk1
  {
    hide Ok;
    var blk1, free1 := Joined(blk, left), Without(free, k);
    NodeFacts(a, blk, free, raw, avail, k);
    WithoutIn(free, k);
    ListedOnceOf(a, blk, free, raw, avail);
    forall b ensures b in free1 <==> b in free && b != left {
      if b != left {
        InWithout(free, k, b);
      }
    }
    assert idx !in free by { RawNotListedOf(a, blk, free, raw, avail, idx); }
    forall b | b in blk1 && b in free1 ensures b + blk1[b] !in free1 {
      assert b in blk && b in free && b != left && b != idx;
    }
    forall p | EndsAt(blk1, p, left) ensures p !in free1 {
      assert p in blk && p in free ==> p + blk[p] !in free;
    }
  }

  lemma ListedOnceOf(a: seq<int>, blk: Blocks, free: seq<nat>, raw: set<nat>, avail: nat)
    requires Ok(a, blk, free, raw, avail)
    ensures forall j, k :: 0 <= j < |free| && 0 <= k < |free| && j != k ==> free[j] != free[k]
  {
    ListedOnce(a, blk, free, raw, avail);
  }

  lemma RawNotListedOf(a: seq<int>, blk: Blocks, free: seq<nat>, raw: set<nat>, avail: nat, b: nat)
    requires Ok(a, blk, free, raw, avail) && b in raw
    ensures b !in free
  {
    RawNotListed(a, blk, free, raw, avail, b);
  }

  lemma RightUnmerged(a: seq<int>, blk: Blocks, free: seq<nat>, raw: set<nat>, avail: nat, lo: nat)
    requires lo in blk && lo + blk[lo] !in free
    ensures MergedRight(blk, free, blk, free, lo)
  {
  }

  lemma RightMerged(a: seq<int>, blk: Blocks, free: seq<nat>, raw: set<nat>, avail: nat, lo: nat, k: nat)
    requires Ok(a, blk, free, raw, avail) && raw == {lo} && lo in blk && !Sentinel(a, lo) && NoNeighbours(blk, free)
    requires k < |free| && free[k] == lo + blk[lo] && lo + blk[lo] in blk
    ensures MergedRight(blk, free, Joined(blk, lo), Without(free, k), lo)
  {
    hide Ok;
    var blk1, free1 := Joined(blk, lo), Without(free, k);
    NodeFacts(a, blk, free, raw, avail, k);
    WithoutIn(free, k);
    ListedOnceOf(a, blk, free, raw, avail);
    forall b ensures b in free1 <==> b in free && b != free[k] {
      if b != free[k] {
        InWithout(free, k, b);
      }
    }
    RightNeighbour(a, blk, free, raw, avail, lo);
  }

  /** The two merges together. */
  lemma FreeDone(a: seq<int>, blk: Blocks, free: seq<nat>, avail: nat, blk1: Blocks, free1: seq<nat>,
                 blk2: Blocks, free2: seq<nat>, idx: nat, lo: nat)
    requires Valid(a, blk, free, avail) && idx in blk && idx !in free && !Sentinel(a, idx)
    requires MergedLeft(blk, free, blk1, free1, idx, lo) && MergedRight(blk1, free1, blk2, free2, lo)
    ensures lo in blk2
    ensures FreedRange(blk, free, idx, lo, lo + blk2[lo]) && Coalesced(blk, free, blk2, [lo] + free2, lo, lo + blk2[lo])
    ensures NoNeighbours(blk2, [lo] + free2)
  {
    FreeRange(a, blk, free, avail, blk1, free1, blk2, free2, idx, lo);
    FreeBlocks(a, blk, free, avail, blk1, free1, blk2, free2, idx, lo);
    FreeListOf(a, blk, free, avail, blk1, free1, blk2, free2, idx, lo);
    FreeNeighbours(a, blk, free, avail, blk1, free1, blk2, free2, idx, lo);
  }

  lemma FreeRange(a: seq<int>, blk: Blocks, free: seq<nat>, avail: nat, blk1: Blocks, free1: seq<nat>,
                  blk2: Blocks, free2: seq<nat>, idx: nat, lo: nat)
    requires Valid(a, blk, free, avail) && idx in blk && idx !in free && !Sentinel(a, idx)
    requires MergedLeft(blk, free, blk1, free1, idx, lo) && MergedRight(blk1, free1, blk2, free2, lo)
    ensures lo in blk2 && FreedRange(blk, free, idx, lo, lo + blk2[lo]) && lo + blk1[lo] == idx + blk[idx]
    ensures blk[idx] >= 4
    ensures blk1[lo] <= blk2[lo] && (blk2 != blk1 ==> lo + blk1[lo] in free)
  {
    hide TagOk;
    assert ExtentOk(a, blk, idx);
  }

  lemma FreeBlocks(a: seq<int>, blk: Blocks, free: seq<nat>, avail: nat, blk1: Blocks, free1: seq<nat>,
                   blk2: Blocks, free2: seq<nat>, idx: nat, lo: nat)
    requires Valid(a, blk, free, avail) && idx in blk && idx !in free && !Sentinel(a, idx)
    requires MergedLeft(blk, free, blk1, free1, idx, lo) && MergedRight(blk1, free1, blk2, free2, lo)
    requires lo in blk2
    ensures forall b :: b in blk2 <==> b in blk && !(lo < b < lo + blk2[lo])
    ensures forall b :: b in blk2 && b != lo ==> b in blk && blk2[b] == blk[b]
  {
    hide TagOk;
    var hi := lo + blk2[lo];
    assert ExtentOk(a, blk, idx);
    forall b ensures b in blk2 <==> b in blk && !(lo < b < hi) {
      if b in blk {
        InsideRange(a, blk, free, avail, blk1, free1, blk2, free2, idx, lo, b);
      }
    }
  }

  /** Between the ends of the merged block only absorbed headers lie. */
  lemma InsideRange(a: seq<int>, blk: Blocks, free: seq<nat>, avail: nat, blk1: Blocks, free1: seq<nat>,
                    blk2: Blocks, free2: seq<nat>, idx: nat, lo: nat, b: nat)
    requires Valid(a, blk, free, avail) && idx in blk && idx !in free && !Sentinel(a, idx)
    requires MergedLeft(blk, free, blk1, free1, idx, lo) && MergedRight(blk1, free1, blk2, free2, lo)
    requires lo in blk2 && b in blk
    ensures lo < b < lo + blk2[lo] <==> b != lo && (b == idx || (b == idx + blk[idx] && b in free))
  {
    hide TagOk;
    assert ExtentOk(a, blk, idx) && ExtentOk(a, blk, b);
    assert lo in blk && ExtentOk(a, blk, lo);
    assert b < lo ==> Apart(blk, b, lo);
    assert lo < b ==> Apart(blk, lo, b);
    assert b < idx ==> Apart(blk, b, idx);
    assert idx < b ==> Apart(blk, idx, b);
    var r := idx + blk[idx];
    if r in free && r in blk {
      assert ExtentOk(a, blk, r);
      assert r < b ==> Apart(blk, r, b);
    }
  }

  lemma FreeListOf(a: seq<int>, blk: Blocks, free: seq<nat>, avail: nat, blk1: Blocks, free1: seq<nat>,
                   blk2: Blocks, free2: seq<nat>, idx: nat, lo: nat)
    requires Valid(a, blk, free, avail) && idx in blk && idx !in free && !Sentinel(a, idx)
    requires MergedLeft(blk, free, blk1, free1, idx, lo) && MergedRight(blk1, free1, blk2, free2, lo)
    requires lo in blk2
    ensures forall b :: b in [lo] + free2 <==> b == lo || (b in free && !(lo <= b < lo + blk2[lo]))
  {
    hide TagOk;
    forall b ensures b in [lo] + free2 <==> b == lo || (b in free && !(lo <= b < lo + blk2[lo])) {
      if b in free {
        ListedIsBlock(a, blk, free, avail, b);
        InsideRange(a, blk, free, avail, blk1, free1, blk2, free2, idx, lo, b);
      }
    }
  }

  lemma ListedIsBlock(a: seq<int>, blk: Blocks, free: seq<nat>, avail: nat, b: nat)
    requires Valid(a, blk, free, avail) && b in free
    ensures b in blk && !Sentinel(a, b)
  {
    var k :| 0 <= k < |free| && free[k] == b;
    assert NodeOk(a, blk, free, {}, k);
  }

  lemma FreeNeighbours(a: seq<int>, blk: Blocks, free: seq<nat>, avail: nat, blk1: Blocks, free1: seq<nat>,
                       blk2: Blocks, free2: seq<nat>, idx: nat, lo: nat)
    requires Valid(a, blk, free, avail) && idx in blk && idx !in free && !Sentinel(a, idx)
    requires MergedLeft(blk, free, blk1, free1, idx, lo) && MergedRight(blk1, free1, blk2, free2, lo)
    requires lo in blk2 && blk1[lo] <= blk2[lo] && blk[idx] >= 4 && lo + blk1[lo] == idx + blk[idx]
    requires forall b :: b in blk2 && b != lo ==> b in blk && blk2[b] == blk[b]
    requires forall b :: b in [lo] + free2 <==> b == lo || (b in free && !(lo <= b < lo + blk2[lo]))
    ensures NoNeighbours(blk2, [lo] + free2)
  {
    hide TagOk;
    forall b | b in blk2 && b in [lo] + free2 ensures b + blk2[b] !in [lo] + free2 {
      if b == lo {
        assert lo + blk2[lo] !in free2;
      } else {
        assert b in free && b in blk && b + blk[b] !in free;
        assert b + blk[b] == lo ==> EndsAt(blk1, b, lo);
      }
    }
  }

  lemma FreeKept(a0: seq<int>, a1: seq<int>, a2: seq<int>, a3: seq<int>, blk: Blocks, free: seq<nat>,
                 blk1: Blocks, free1: seq<nat>, blk2: Blocks, free2: seq<nat>, idx: nat, lo: nat)
    requires idx in blk
    requires MergedLeft(blk, free, blk1, free1, idx, lo) && MergedRight(blk1, free1, blk2, free2, lo)
    requires PayloadKept(a0, a1, blk, free, {idx}) && PayloadKept(a1, a2, blk1, free1, {lo})
    requires PayloadKept(a2, a3, blk2, free2, {lo})
    ensures PayloadKept(a0, a3, blk, free, {idx})
  {
    forall b {:trigger SamePayload(a0, a3, b, blk[b])} | b in blk && b !in free && b != idx
      ensures SamePayload(a0, a3, b, blk[b])
    {
      assert b != lo && b in blk1 && b in blk2 && blk1[b] == blk[b] && blk2[b] == blk[b];
      assert SamePayload(a0, a1, b, blk[b]) && SamePayload(a1, a2, b, blk1[b]) && SamePayload(a2, a3, b, blk2[b]);
    }
  }

  // ---------- what clients rely on ----------

  /** What a client writes into its payload touches no tag, no link and no other block. */
  lemma ClientStore(a: seq<int>, blk: Blocks, free: seq<nat>, avail: nat, b: nat, i: nat, x: int)
    requires Valid(a, blk, free, avail) && LiveBlock(a, blk, free, b) && b < i < b + blk[b] - 1 && i < |a|
    ensures Valid(a[i := x], blk, free, avail) && PayloadKept(a, a[i := x], blk, free, {b})
  {
    var a' := a[i := x];
    SameLengthTiled(a, a', blk);
    forall c {:trigger TagOk(a', blk, free, c)} | c in blk
      ensures TagOk(a', blk, free, c)
    {
      assert TagOk(a, blk, free, c);
      if c != b {
        OtherBlock(a, blk, b, c, i);
      }
    }
    forall c {:trigger SamePayload(a, a', c, blk[c])} | c in blk && c != b ensures SamePayload(a, a', c, blk[c]) {
      assert TagOk(a, blk, free, c);
      OtherBlock(a, blk, b, c, i);
    }
    forall k {:trigger NodeOk(a', blk, free, {}, k)} | 0 <= k < |free| ensures NodeOk(a', blk, free, {}, k) {
      NodeFacts(a, blk, free, {}, avail, k);
      assert NodeOk(a, blk, free, {}, k);
      OtherBlock(a, blk, b, free[k], i);
    }
  }

  /** malloc adds exactly one live block, big enough, with the others as they were. */
  lemma AllottedLive(a: seq<int>, a': seq<int>, blk: Blocks, free: seq<nat>, avail: nat, blk': Blocks, free': seq<nat>,
                     k: nat, need: nat)
    requires Valid(a, blk, free, avail) && |a'| == |a| && need >= 4 && Allotted(blk, free, blk', free', k, need)
    ensures forall b :: LiveBlock(a', blk', free', b) <==> b == free[k] || LiveBlock(a, blk, free, b)
    ensures free[k] in blk' && need <= blk'[free[k]] < need + 4 && !LiveBlock(a, blk, free, free[k])
    ensures forall b :: LiveBlock(a, blk, free, b) ==> b in blk' && blk'[b] == blk[b]
  {
    hide TagOk;
    var it := free[k];
    assert NodeOk(a, blk, free, {}, k);
    assert ExtentOk(a, blk, it);
    assert it + need in blk ==> Apart(blk, it, it + need);
    ListedOnce(a, blk, free, {}, avail);
    WithoutIn(free, k);
    assert ExtentOk(a, blk, |a| - 2);
    assert it < |a| - 2 ==> Apart(blk, it, |a| - 2);
    forall b ensures LiveBlock(a', blk', free', b) <==> b == it || LiveBlock(a, blk, free, b) {
      if b != it {
        InWithout(free, k, b);
      }
    }
  }

  /** free removes exactly one live block. */
  lemma LiveAfterFree(a: seq<int>, blk: Blocks, free: seq<nat>, blk': Blocks, free': seq<nat>, idx: nat, lo: nat,
                      hi: nat, a': seq<int>)
    requires exists avail :: Valid(a, blk, free, avail)
    requires LiveBlock(a, blk, free, idx) && |a'| == |a|
    requires FreedRange(blk, free, idx, lo, hi) && Coalesced(blk, free, blk', free', lo, hi)
    ensures forall b :: LiveBlock(a', blk', free', b) <==> b != idx && LiveBlock(a, blk, free, b)
  {
    hide TagOk;
    var avail :| Valid(a, blk, free, avail);
    forall b ensures LiveBlock(a', blk', free', b) <==> b != idx && LiveBlock(a, blk, free, b) {
      if b in blk {
        FreedInside(a, blk, free, avail, idx, lo, hi, b);
      }
    }
  }

  lemma FreedInside(a: seq<int>, blk: Blocks, free: seq<nat>, avail: nat, idx: nat, lo: nat, hi: nat, b: nat)
    requires Valid(a, blk, free, avail) && LiveBlock(a, blk, free, idx) && FreedRange(blk, free, idx, lo, hi)
    requires b in blk
    ensures lo <= b < hi ==> b == idx || b in free
    ensures lo <= idx < hi
  {
    hide TagOk;
    assert ExtentOk(a, blk, idx) && ExtentOk(a, blk, b);
    assert lo in blk && ExtentOk(a, blk, lo);
    assert lo < b ==> Apart(blk, lo, b);
    assert b < idx ==> Apart(blk, b, idx);
    assert idx < b ==> Apart(blk, idx, b);
    var r := idx + blk[idx];
    if r in free && r in blk {
      assert r < b ==> Apart(blk, r, b);
    }
  }

  /** Payloads of different live blocks do not overlap. */
  lemma PayloadsDisjoint(a: seq<int>, blk: Blocks, free: seq<nat>, avail: nat, b: nat, c: nat)
    requires Valid(a, blk, free, avail) && LiveBlock(a, blk, free, b) && LiveBlock(a, blk, free, c) && b < c
    ensures b + 1 < b + blk[b] - 1 < c + 1 < c + blk[c] - 1 < |a|
  {
    assert Apart(blk, b, c) && ExtentOk(a, blk, b) && ExtentOk(a, blk, c);
  }

  /** Every integer of the array is in exactly one block. */
  lemma {:induction false} Covers(a: seq<int>, blk: Blocks, i: nat) returns (b: nat)
    requires Tiled(a, blk) && i < |a|
    ensures b in blk && b <= i < b + blk[b]
    ensures forall c :: c in blk && c <= i < c + blk[c] ==> c == b
  {
    if i == 0 {
      b := 0;
      assert ExtentOk(a, blk, 0);
    } else {
      b := Covers(a, blk, i - 1);
      assert ExtentOk(a, blk, b);
      if i == b + blk[b] {
        b := i;
        assert ExtentOk(a, blk, b);
      }
    }
    forall c | c in blk && c <= i < c + blk[c] ensures c == b {
      OneBlock(a, blk, i, b, c);
    }
  }

  lemma OneBlock(a: seq<int>, blk: Blocks, i: nat, b: nat, c: nat)
    requires Tiled(a, blk) && b in blk && c in blk && b <= i < b + blk[b] && c <= i < c + blk[c]
    ensures b == c
  {
    assert c < b ==> Apart(blk, c, b);
    assert b < c ==> Apart(blk, b, c);
  }

  /** Without live blocks the heap is as heapInit left it. */
  lemma EverythingFree(a: seq<int>, blk: Blocks, free: seq<nat>, avail: nat)
    requires Valid(a, blk, free, avail) && forall b :: !LiveBlock(a, blk, free, b)
    ensures blk == map[0 := 2, 2 := |a| - 4, |a| - 2 := 2] && free == [2]
  {
    hide TagOk;
    assert ExtentOk(a, blk, 0) && ExtentOk(a, blk, |a| - 2);
    assert !LiveBlock(a, blk, free, 2);
    assert 2 in blk && ExtentOk(a, blk, 2) && 2 in free;
    var n := 2 + blk[2];
    assert 2 < |a| - 2 ==> Apart(blk, 2, |a| - 2);
    assert !LiveBlock(a, blk, free, n);
    assert n == |a| - 2;
    forall b | b in blk ensures b == 0 || b == 2 || b == |a| - 2 {
      assert ExtentOk(a, blk, b);
      assert 0 < b ==> Apart(blk, 0, b);
      assert 2 < b ==> Apart(blk, 2, b);
    }
    forall k | 0 <= k < |free| ensures free[k] == 2 {
      assert NodeOk(a, blk, free, {}, k);
    }
    ListedOnce(a, blk, free, {}, avail);
    assert free[|free| - 1] == free[0];
    assert free == [2];
  }
}
