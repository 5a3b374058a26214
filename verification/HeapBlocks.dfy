/** Blocks with boundary tags and a doubly linked free list, all in one array of integers
    (kernel/heap.cc and its first-fit twin etan.dir/sbin/heap.c). */
module HeapBlocks {
  /** Header index to size in integers. */
  type Blocks = map<nat, nat>

  function Abs(x: int): nat {
    if x < 0 then -x else x
  }

  ghost function At(free: seq<nat>, k: int): nat {
    if 0 <= k < |free| then free[k] else 0
  }

  ghost predicate Sentinel(a: seq<int>, b: nat) {
    b == 0 || b == |a| - 2
  }

  // ---------- tiling ----------

  ghost predicate ExtentOk(a: seq<int>, blk: Blocks, b: nat)
    requires b in blk
  {
    && b + blk[b] <= |a|
    && (if Sentinel(a, b) then blk[b] == 2 else blk[b] >= 4)
    && (b + blk[b] < |a| ==> b + blk[b] in blk)
    && (b > 0 ==> exists p :: EndsAt(blk, p, b))
  }

  ghost predicate EndsAt(blk: Blocks, p: nat, b: nat) {
    p in blk && p + blk[p] == b
  }

  /** Blocks lie end to end from the first integer to the last, between two sentinels. */
  ghost predicate Tiled(a: seq<int>, blk: Blocks) {
    && |a| >= 8
    && 0 in blk && |a| - 2 in blk
    && (forall b {:trigger ExtentOk(a, blk, b)} :: b in blk ==> ExtentOk(a, blk, b))
    && (forall b, c {:trigger Apart(blk, b, c)} :: b in blk && c in blk && b < c ==> Apart(blk, b, c))
  }

  ghost predicate Apart(blk: Blocks, b: nat, c: nat)
    requires b in blk
  {
    b + blk[b] <= c
  }

  /** Header and footer hold the size, negative if the block is taken. */
  ghost predicate TagOk(a: seq<int>, blk: Blocks, free: seq<nat>, b: nat)
    requires b in blk
  {
    var tag := if b in free then blk[b] else -(blk[b] as int);
    0 < blk[b] && b + blk[b] <= |a| && a[b] == tag && a[b + blk[b] - 1] == tag
  }

  ghost predicate NodeOk(a: seq<int>, blk: Blocks, free: seq<nat>, raw: set<nat>, k: nat)
    requires k < |free|
  {
    var b := free[k];
    && b in blk && b !in raw && !Sentinel(a, b) && b + 3 < |a|
    && a[b + 1] == At(free, k + 1) && a[b + 2] == At(free, k - 1)
  }

  /** The links inside the available blocks spell out the list free. */
  ghost predicate Listed(a: seq<int>, blk: Blocks, free: seq<nat>, raw: set<nat>, avail: nat) {
    && avail == At(free, 0)
    && (forall k {:trigger NodeOk(a, blk, free, raw, k)} :: 0 <= k < |free| ==> NodeOk(a, blk, free, raw, k))
    && (forall j, k :: 0 <= j < k < |free| ==> free[j] != free[k])
  }

  /** The heap, except that the blocks in raw are being worked on: nothing is known of their content. */
  ghost predicate Ok(a: seq<int>, blk: Blocks, free: seq<nat>, raw: set<nat>, avail: nat) {
    && Tiled(a, blk)
    && (forall b {:trigger TagOk(a, blk, free, b)} :: b in blk && b !in raw ==> TagOk(a, blk, free, b))
    && Listed(a, blk, free, raw, avail)
    && 0 !in raw && |a| - 2 !in raw
  }

  ghost predicate NoNeighbours(blk: Blocks, free: seq<nat>) {
    forall b :: b in blk && b in free ==> b + blk[b] !in free
  }

  ghost predicate Valid(a: seq<int>, blk: Blocks, free: seq<nat>, avail: nat) {
    Ok(a, blk, free, {}, avail) && NoNeighbours(blk, free)
  }

  /** The integers between header and footer of taken blocks outside raw are the same in both arrays. */
  ghost predicate PayloadKept(a: seq<int>, a': seq<int>, blk: Blocks, free: seq<nat>, raw: set<nat>) {
    && |a'| == |a|
    && forall b {:trigger SamePayload(a, a', b, blk[b])} ::
      b in blk && b !in free && b !in raw ==> SamePayload(a, a', b, blk[b])
  }

  ghost predicate SamePayload(a: seq<int>, a': seq<int>, b: nat, n: nat) {
    |a'| == |a| && b + n <= |a| && forall i :: b <= i < b + n ==> a'[i] == a[i]
  }

  // ---------- what the list knows ----------

  lemma ListHead(a: seq<int>, blk: Blocks, free: seq<nat>, raw: set<nat>, avail: nat)
    requires Ok(a, blk, free, raw, avail)
    ensures avail == 0 <==> free == []
    ensures avail != 0 ==> avail == free[0] && avail in blk
  {
    if free != [] {
      assert NodeOk(a, blk, free, raw, 0);
    }
  }

  lemma NodeFacts(a: seq<int>, blk: Blocks, free: seq<nat>, raw: set<nat>, avail: nat, k: nat)
    requires Ok(a, blk, free, raw, avail) && k < |free|
    ensures var b := free[k];
            && b in blk && b > 0 && blk[b] >= 4 && b + blk[b] < |a| && b !in raw && TagOk(a, blk, free, b)
            && a[b] == blk[b] && a[b + 1] == At(free, k + 1) && a[b + 2] == At(free, k - 1)
    ensures At(free, k + 1) == 0 <==> k + 1 == |free|
    ensures At(free, k - 1) == 0 <==> k == 0
  {
    assert NodeOk(a, blk, free, raw, k);
    assert ExtentOk(a, blk, free[k]) && ExtentOk(a, blk, |a| - 2);
    assert free[k] < |a| - 2 ==> Apart(blk, free[k], |a| - 2);
    assert TagOk(a, blk, free, free[k]);
    if k + 1 < |free| {
      assert NodeOk(a, blk, free, raw, k + 1);
    }
    if k > 0 {
      assert NodeOk(a, blk, free, raw, k - 1);
    }
  }

  /** A write strictly inside block b, or anywhere in a raw block, spares every other block. */
  lemma OtherBlock(a: seq<int>, blk: Blocks, b: nat, c: nat, i: nat)
    requires Tiled(a, blk) && b in blk && c in blk && b != c && b <= i < b + blk[b]
    ensures !(c <= i < c + blk[c])
  {
    assert if b < c then Apart(blk, b, c) else Apart(blk, c, b);
  }

  // ---------- remove ----------

  ghost function SetIf(a: seq<int>, c: bool, i: nat, x: int): (r: seq<int>)
    ensures |r| == |a|
    ensures forall j :: 0 <= j < |a| ==> r[j] == if c && j == i then x else a[j]
  {
    if c && i < |a| then a[i := x] else a
  }

  /** remove: block i is unlinked from its neighbours in the list. */
  ghost function Unlinked(a: seq<int>, i: nat): seq<int>
    requires i + 2 < |a|
  {
    var p, n := a[i + 2], a[i + 1];
    SetIf(SetIf(a, p > 0, Abs(p) + 1, n), n > 0, Abs(n) + 2, p)
  }

  ghost function Without(free: seq<nat>, k: nat): seq<nat>
    requires k < |free|
  {
    free[..k] + free[k + 1..]
  }

  lemma UnlinkedAt(a: seq<int>, blk: Blocks, free: seq<nat>, raw: set<nat>, avail: nat, k: nat)
    requires Ok(a, blk, free, raw, avail) && k < |free|
    ensures free[k] + 2 < |a| && |Unlinked(a, free[k])| == |a|
    ensures forall j :: 0 <= j < |a| ==>
      Unlinked(a, free[k])[j] ==
        if k > 0 && j == free[k - 1] + 1 then At(free, k + 1)
        else if k + 1 < |free| && j == free[k + 1] + 2 then At(free, k - 1)
        else a[j]
  {
    NodeFacts(a, blk, free, raw, avail, k);
    if k > 0 {
      NodeFacts(a, blk, free, raw, avail, k - 1);
    }
    if k + 1 < |free| {
      NodeFacts(a, blk, free, raw, avail, k + 1);
    }
    if k > 0 && k + 1 < |free| {
      assert free[k - 1] != free[k + 1];
      OtherBlock(a, blk, free[k - 1], free[k + 1], free[k - 1] + 1);
    }
  }

  lemma RemoveOk(a: seq<int>, blk: Blocks, free: seq<nat>, raw: set<nat>, avail: nat, k: nat)
    requires Ok(a, blk, free, raw, avail) && k < |free|
    ensures free[k] + 2 < |a|
    ensures var a' := Unlinked(a, free[k]);
            && Ok(a', blk, Without(free, k), raw + {free[k]}, if k == 0 then At(free, 1) else avail)
            && PayloadKept(a, a', blk, free, raw)
  {
    hide Tiled, Ok, Listed;
    UnlinkedAt(a, blk, free, raw, avail, k);
    RemoveTags(a, blk, free, raw, avail, k);
    RemoveLinks(a, blk, free, raw, avail, k);
    RemoveTiles(a, blk, free, raw, avail, k);
  }

  lemma RemoveTiles(a: seq<int>, blk: Blocks, free: seq<nat>, raw: set<nat>, avail: nat, k: nat)
    requires Ok(a, blk, free, raw, avail) && k < |free| && free[k] + 2 < |a|
    requires |Unlinked(a, free[k])| == |a|
    requires forall b {:trigger TagOk(Unlinked(a, free[k]), blk, Without(free, k), b)} ::
      b in blk && b !in raw && b != free[k] ==> TagOk(Unlinked(a, free[k]), blk, Without(free, k), b)
    requires Listed(Unlinked(a, free[k]), blk, Without(free, k), raw + {free[k]}, if k == 0 then At(free, 1) else avail)
    ensures Ok(Unlinked(a, free[k]), blk, Without(free, k), raw + {free[k]}, if k == 0 then At(free, 1) else avail)
  {
    hide TagOk, Listed, Unlinked;
    NodeFacts(a, blk, free, raw, avail, k);
    SameLengthTiled(a, Unlinked(a, free[k]), blk);
    SentinelsNotListed(a, blk, free, raw, avail, k);
  }

  lemma SentinelsNotListed(a: seq<int>, blk: Blocks, free: seq<nat>, raw: set<nat>, avail: nat, k: nat)
    requires Ok(a, blk, free, raw, avail) && k < |free|
    ensures !Sentinel(a, free[k])
  {
    assert NodeOk(a, blk, free, raw, k);
  }

  lemma SameLengthTiled(a: seq<int>, a': seq<int>, blk: Blocks)
    requires Tiled(a, blk) && |a'| == |a|
    ensures Tiled(a', blk)
  {
    forall b {:trigger ExtentOk(a', blk, b)} | b in blk ensures ExtentOk(a', blk, b) {
      assert ExtentOk(a, blk, b);
    }
  }

  lemma InWithout(free: seq<nat>, k: nat, b: nat)
    requires k < |free| && b != free[k]
    ensures b in Without(free, k) <==> b in free
  {
    if b in free {
      var j :| 0 <= j < |free| && free[j] == b;
      assert Without(free, k)[if j < k then j else j - 1] == b;
    }
  }

  lemma RemoveTags(a: seq<int>, blk: Blocks, free: seq<nat>, raw: set<nat>, avail: nat, k: nat)
    requires Ok(a, blk, free, raw, avail) && k < |free|
    ensures free[k] + 2 < |a|
    ensures var a' := Unlinked(a, free[k]);
            && (forall b {:trigger TagOk(a', blk, Without(free, k), b)} ::
                b in blk && b !in raw && b != free[k] ==> TagOk(a', blk, Without(free, k), b))
            && PayloadKept(a, a', blk, free, raw)
  {
    hide Unlinked, Listed, Without;
    UnlinkedAt(a, blk, free, raw, avail, k);
    var a' := Unlinked(a, free[k]);
    if k > 0 {
      NodeFacts(a, blk, free, raw, avail, k - 1);
    }
    if k + 1 < |free| {
      NodeFacts(a, blk, free, raw, avail, k + 1);
    }
    forall b {:trigger TagOk(a', blk, Without(free, k), b)} | b in blk && b !in raw && b != free[k]
      ensures TagOk(a', blk, Without(free, k), b)
    {
      InWithout(free, k, b);
      assert TagOk(a, blk, free, b);
      LinksElsewhere(a, blk, free, raw, avail, k, b);
    }
    forall b {:trigger SamePayload(a, a', b, blk[b])} | b in blk && b !in free && b !in raw
      ensures SamePayload(a, a', b, blk[b])
    {
      assert TagOk(a, blk, free, b);
      LinksElsewhere(a, blk, free, raw, avail, k, b);
    }
  }

  /** Unlinking entry k writes to no tag, and to nothing in a block that is not listed. */
  lemma LinksElsewhere(a: seq<int>, blk: Blocks, free: seq<nat>, raw: set<nat>, avail: nat, k: nat, b: nat)
    requires Ok(a, blk, free, raw, avail) && k < |free| && b in blk && b !in raw && b != free[k]
    ensures k > 0 && b <= free[k - 1] + 1 < b + blk[b] ==> b in free && free[k - 1] == b && blk[b] >= 4
    ensures k + 1 < |free| && b <= free[k + 1] + 2 < b + blk[b] ==> b in free && free[k + 1] == b && blk[b] >= 4
  {
    hide Tiled, TagOk, Listed;
    if k > 0 {
      NodeFacts(a, blk, free, raw, avail, k - 1);
      if b != free[k - 1] {
        OtherBlock(a, blk, free[k - 1], b, free[k - 1] + 1);
      }
    }
    if k + 1 < |free| {
      NodeFacts(a, blk, free, raw, avail, k + 1);
      if b != free[k + 1] {
        OtherBlock(a, blk, free[k + 1], b, free[k + 1] + 2);
      }
    }
  }

  lemma RemoveLinks(a: seq<int>, blk: Blocks, free: seq<nat>, raw: set<nat>, avail: nat, k: nat)
    requires Ok(a, blk, free, raw, avail) && k < |free|
    ensures free[k] + 2 < |a|
    ensures Listed(Unlinked(a, free[k]), blk, Without(free, k), raw + {free[k]}, if k == 0 then At(free, 1) else avail)
  {
    hide Unlinked, TagOk, Tiled;
    UnlinkedAt(a, blk, free, raw, avail, k);
    var a', free' := Unlinked(a, free[k]), Without(free, k);
    forall j {:trigger NodeOk(a', blk, free', raw + {free[k]}, j)} | 0 <= j < |free'|
      ensures NodeOk(a', blk, free', raw + {free[k]}, j)
    {
      RemoveNode(a, blk, free, raw, avail, k, j);
    }
  }

  lemma RemoveNode(a: seq<int>, blk: Blocks, free: seq<nat>, raw: set<nat>, avail: nat, k: nat, j: nat)
    requires Ok(a, blk, free, raw, avail) && k < |free| && j < |free| - 1
    ensures free[k] + 2 < |a|
    ensures NodeOk(Unlinked(a, free[k]), blk, Without(free, k), raw + {free[k]}, j)
  {
    hide Unlinked, TagOk, Tiled;
    UnlinkedAt(a, blk, free, raw, avail, k);
    var a', free' := Unlinked(a, free[k]), Without(free, k);
    var m := if j < k then j else j + 1;
    NodeFacts(a, blk, free, raw, avail, m);
    assert NodeOk(a, blk, free, raw, m);
    assert free'[j] == free[m] && free[m] != free[k];
    RemoveNodeWords(a, blk, free, raw, avail, k, m);
    assert At(free', j + 1) == if m + 1 == k then At(free, k + 1) else At(free, m + 1);
    assert At(free', j - 1) == if m - 1 == k then At(free, k - 1) else At(free, m - 1);
  }

  /** The links of another list entry after entry k is unlinked. */
  lemma RemoveNodeWords(a: seq<int>, blk: Blocks, free: seq<nat>, raw: set<nat>, avail: nat, k: nat, m: nat)
    requires Ok(a, blk, free, raw, avail) && k < |free| && m < |free| && m != k
    ensures free[k] + 2 < |a| && free[m] + 2 < |a|
    ensures Unlinked(a, free[k])[free[m] + 1] == if m + 1 == k then At(free, k + 1) else At(free, m + 1)
    ensures Unlinked(a, free[k])[free[m] + 2] == if m == k + 1 then At(free, k - 1) else At(free, m - 1)
  {
    hide Unlinked, TagOk, Tiled, Listed;
    UnlinkedAt(a, blk, free, raw, avail, k);
    NodeFacts(a, blk, free, raw, avail, m);
    ListedOnce(a, blk, free, raw, avail);
    if k > 0 {
      NodeFacts(a, blk, free, raw, avail, k - 1);
      if m != k - 1 {
        OtherBlock(a, blk, free[k - 1], free[m], free[k - 1] + 1);
      }
    }
    if k + 1 < |free| {
      NodeFacts(a, blk, free, raw, avail, k + 1);
      if m != k + 1 {
        OtherBlock(a, blk, free[k + 1], free[m], free[k + 1] + 2);
      }
    }
  }

  lemma ListedOnce(a: seq<int>, blk: Blocks, free: seq<nat>, raw: set<nat>, avail: nat)
    requires Listed(a, blk, free, raw, avail)
    ensures forall j, k :: 0 <= j < |free| && 0 <= k < |free| && j != k ==> free[j] != free[k]
  {
  }

  // ---------- working on a raw block ----------

  /** A taken block is taken apart. */
  lemma OpenBlock(a: seq<int>, blk: Blocks, free: seq<nat>, raw: set<nat>, avail: nat, b: nat)
    requires Ok(a, blk, free, raw, avail) && b in blk && b !in free && !Sentinel(a, b)
    ensures Ok(a, blk, free, raw + {b}, avail)
  {
    hide Tiled, TagOk;
    forall k {:trigger NodeOk(a, blk, free, raw + {b}, k)} | 0 <= k < |free|
      ensures NodeOk(a, blk, free, raw + {b}, k)
    {
      assert NodeOk(a, blk, free, raw, k);
    }
  }

  ghost function Joined(blk: Blocks, b: nat): Blocks
    requires b in blk && b + blk[b] in blk
  {
    (blk - {b + blk[b]})[b := blk[b] + blk[b + blk[b]]]
  }

  /** Two neighbouring raw blocks become one. */
  lemma JoinOk(a: seq<int>, blk: Blocks, free: seq<nat>, raw: set<nat>, avail: nat, b: nat)
    requires Ok(a, blk, free, raw, avail) && b in raw && b in blk && b + blk[b] in raw && b + blk[b] in blk
    ensures Ok(a, Joined(blk, b), free, raw - {b + blk[b]}, avail)
  {
    hide TagOk, Listed;
    var c, blk' := b + blk[b], Joined(blk, b);
    JoinTiled(a, blk, b);
    assert ExtentOk(a, blk, b);
    RawNotListed(a, blk, free, raw, avail, b);
    forall d {:trigger TagOk(a, blk', free, d)} | d in blk' && d !in raw - {c} ensures TagOk(a, blk', free, d) {
      assert d in blk && d !in raw && d != b;
      assert TagOk(a, blk, free, d);
      RetagSame(a, blk, blk', free, d);
    }
    RelistSame(a, blk, blk', free, raw, raw - {c}, avail);
  }

  lemma RetagSame(a: seq<int>, blk: Blocks, blk': Blocks, free: seq<nat>, b: nat)
    requires b in blk && b in blk' && blk'[b] == blk[b] && TagOk(a, blk, free, b)
    ensures TagOk(a, blk', free, b)
  {
  }

  lemma RelistSame(a: seq<int>, blk: Blocks, blk': Blocks, free: seq<nat>, raw: set<nat>, raw': set<nat>, avail: nat)
    requires Listed(a, blk, free, raw, avail)
    requires forall b :: b in blk && b !in raw ==> b in blk' && b !in raw'
    ensures Listed(a, blk', free, raw', avail)
  {
    forall k {:trigger NodeOk(a, blk', free, raw', k)} | 0 <= k < |free| ensures NodeOk(a, blk', free, raw', k) {
      assert NodeOk(a, blk, free, raw, k);
    }
  }

  lemma JoinTiled(a: seq<int>, blk: Blocks, b: nat)
    requires Tiled(a, blk) && b in blk && b + blk[b] in blk && !Sentinel(a, b) && !Sentinel(a, b + blk[b])
    ensures Tiled(a, Joined(blk, b))
  {
    var c, blk' := b + blk[b], Joined(blk, b);
    assert ExtentOk(a, blk, b) && ExtentOk(a, blk, c);
    forall d {:trigger ExtentOk(a, blk', d)} | d in blk' ensures ExtentOk(a, blk', d) {
      assert ExtentOk(a, blk, d);
      assert d < b ==> Apart(blk, d, b);
      assert b < d ==> Apart(blk, b, d);
      if d > 0 {
        var p :| EndsAt(blk, p, d);
        assert EndsAt(blk', if p == c then b else p, d);
      }
    }
    forall d, e {:trigger Apart(blk', d, e)} | d in blk' && e in blk' && d < e ensures Apart(blk', d, e) {
      assert Apart(blk, d, e);
      assert c < e ==> Apart(blk, c, e);
    }
  }

  ghost function Cut(blk: Blocks, b: nat, n: nat): Blocks
    requires b in blk && n <= blk[b]
  {
    blk[b := n][b + n := blk[b] - n]
  }

  /** One raw block becomes two. */
  lemma CutOk(a: seq<int>, blk: Blocks, free: seq<nat>, raw: set<nat>, avail: nat, b: nat, n: nat)
    requires Ok(a, blk, free, raw, avail) && b in raw && b in blk && 4 <= n && n + 4 <= blk[b]
    ensures b + n !in blk && Ok(a, Cut(blk, b, n), free, raw + {b + n}, avail)
  {
    hide TagOk, Listed;
    var blk' := Cut(blk, b, n);
    assert ExtentOk(a, blk, b);
    assert b + n in blk ==> Apart(blk, b, b + n);
    CutTiled(a, blk, b, n);
    forall d {:trigger TagOk(a, blk', free, d)} | d in blk' && d !in raw + {b + n} ensures TagOk(a, blk', free, d) {
      assert TagOk(a, blk, free, d);
      RetagSame(a, blk, blk', free, d);
    }
    CutListed(a, blk, free, raw, avail, b, n);
  }

  lemma CutListed(a: seq<int>, blk: Blocks, free: seq<nat>, raw: set<nat>, avail: nat, b: nat, n: nat)
    requires Listed(a, blk, free, raw, avail) && b in blk && n <= blk[b] && b + n !in blk
    ensures Listed(a, Cut(blk, b, n), free, raw + {b + n}, avail)
  {
    RelistSame(a, blk, Cut(blk, b, n), free, raw, raw + {b + n}, avail);
  }

  lemma CutTiled(a: seq<int>, blk: Blocks, b: nat, n: nat)
    requires Tiled(a, blk) && b in blk && !Sentinel(a, b) && 4 <= n && n + 4 <= blk[b] && b + n !in blk
    ensures Tiled(a, Cut(blk, b, n))
  {
    var blk' := Cut(blk, b, n);
    assert ExtentOk(a, blk, b);
    forall d {:trigger ExtentOk(a, blk', d)} | d in blk' ensures ExtentOk(a, blk', d) {
      if d == b + n {
        assert EndsAt(blk', b, d);
        assert ExtentOk(a, blk, |a| - 2);
      } else {
        assert ExtentOk(a, blk, d);
        if d > 0 {
          var p :| EndsAt(blk, p, d);
          assert EndsAt(blk', if p == b then b + n else p, d);
        }
      }
    }
    forall d, e {:trigger Apart(blk', d, e)} | d in blk' && e in blk' && d < e ensures Apart(blk', d, e) {
      CutApart(a, blk, b, n, d, e);
    }
  }

  lemma CutApart(a: seq<int>, blk: Blocks, b: nat, n: nat, d: nat, e: nat)
    requires Tiled(a, blk) && b in blk && 4 <= n && n + 4 <= blk[b] && b + n !in blk
    requires d in Cut(blk, b, n) && e in Cut(blk, b, n) && d < e
    ensures Apart(Cut(blk, b, n), d, e)
  {
    hide ExtentOk;
    assert b < e && e in blk ==> Apart(blk, b, e);
    assert d < b && d in blk ==> Apart(blk, d, b);
    assert b < d && d in blk ==> Apart(blk, b, d);
    assert d in blk && e in blk ==> Apart(blk, d, e);
  }

  // ---------- makeTaken and makeAvail ----------

  ghost function Tagged(a: seq<int>, b: nat, n: nat, tag: int): seq<int>
    requires 0 < n && b + n <= |a|
  {
    a[b := tag][b + n - 1 := tag]
  }

  /** makeTaken on a raw block closes it. */
  lemma TakenOk(a: seq<int>, blk: Blocks, free: seq<nat>, raw: set<nat>, avail: nat, b: nat)
    requires Ok(a, blk, free, raw, avail) && b in raw && b in blk
    ensures 0 < blk[b] && b + blk[b] <= |a|
    ensures var a' := Tagged(a, b, blk[b], -(blk[b] as int));
            Ok(a', blk, free, raw - {b}, avail) && PayloadKept(a, a', blk, free, raw)
  {
    assert ExtentOk(a, blk, b);
    var a' := Tagged(a, b, blk[b], -(blk[b] as int));
    WrittenInside(a, a', blk, free, raw, avail, b);
    assert b !in free by {
      RawNotListed(a, blk, free, raw, avail, b);
    }
    TakenListed(a', blk, free, raw, avail, b);
  }

  lemma RawNotListed(a: seq<int>, blk: Blocks, free: seq<nat>, raw: set<nat>, avail: nat, b: nat)
    requires Listed(a, blk, free, raw, avail) && b in raw
    ensures b !in free
  {
    forall k | 0 <= k < |free| ensures free[k] != b {
      assert NodeOk(a, blk, free, raw, k);
    }
  }

  lemma TakenListed(a: seq<int>, blk: Blocks, free: seq<nat>, raw: set<nat>, avail: nat, b: nat)
    requires Listed(a, blk, free, raw, avail)
    ensures Listed(a, blk, free, raw - {b}, avail)
  {
    forall k {:trigger NodeOk(a, blk, free, raw - {b}, k)} | 0 <= k < |free|
      ensures NodeOk(a, blk, free, raw - {b}, k)
    {
      assert NodeOk(a, blk, free, raw, k);
    }
  }

  /** Whatever is written inside a raw block concerns no other block. */
  lemma WrittenInside(a: seq<int>, a': seq<int>, blk: Blocks, free: seq<nat>, raw: set<nat>, avail: nat, b: nat)
    requires Ok(a, blk, free, raw, avail) && b in raw && b in blk && |a'| == |a|
    requires forall i :: 0 <= i < |a| && !(b <= i < b + blk[b]) ==> a'[i] == a[i]
    ensures Ok(a', blk, free, raw, avail) && PayloadKept(a, a', blk, free, raw)
  {
    SameLengthTiled(a, a', blk);
    forall c {:trigger TagOk(a', blk, free, c)} | c in blk && c !in raw ensures TagOk(a', blk, free, c) {
      assert TagOk(a, blk, free, c);
      assert if c < b then Apart(blk, c, b) else Apart(blk, b, c);
    }
    forall c {:trigger SamePayload(a, a', c, blk[c])} | c in blk && c !in free && c !in raw
      ensures SamePayload(a, a', c, blk[c])
    {
      assert TagOk(a, blk, free, c);
      assert if c < b then Apart(blk, c, b) else Apart(blk, b, c);
    }
    forall k {:trigger NodeOk(a', blk, free, raw, k)} | 0 <= k < |free| ensures NodeOk(a', blk, free, raw, k) {
      NodeFacts(a, blk, free, raw, avail, k);
      assert NodeOk(a, blk, free, raw, k);
      OtherBlock(a, blk, free[k], b, free[k] + 1);
      OtherBlock(a, blk, free[k], b, free[k] + 2);
    }
  }

  /** makeAvail: tagged and pushed on the list. */
  ghost function Pushed(a: seq<int>, b: nat, n: nat, avail: nat): seq<int>
    requires 4 <= n && b + n <= |a|
  {
    SetIf(Tagged(a, b, n, n)[b + 1 := avail][b + 2 := 0], avail > 0, avail + 2, b)
  }

  lemma PushedOk(a: seq<int>, blk: Blocks, free: seq<nat>, raw: set<nat>, avail: nat, b: nat)
    requires Ok(a, blk, free, raw, avail) && b in raw && b in blk
    ensures 4 <= blk[b] && b + blk[b] <= |a|
    ensures var a' := Pushed(a, b, blk[b], avail);
            Ok(a', blk, [b] + free, raw - {b}, b) && PayloadKept(a, a', blk, free, raw)
  {
    hide Listed, TagOk;
    assert ExtentOk(a, blk, b);
    var a1 := Tagged(a, b, blk[b], blk[b])[b + 1 := avail][b + 2 := 0];
    WrittenInside(a, a1, blk, free, raw, avail, b);
    ListHead(a1, blk, free, raw, avail);
    PushLinks(a1, blk, free, raw, avail, b);
    PayloadTrans(a, a1, Pushed(a, b, blk[b], avail), blk, free, raw);
  }

  lemma PayloadTrans(a0: seq<int>, a1: seq<int>, a2: seq<int>, blk: Blocks, free: seq<nat>, raw: set<nat>)
    requires PayloadKept(a0, a1, blk, free, raw) && PayloadKept(a1, a2, blk, free, raw)
    ensures PayloadKept(a0, a2, blk, free, raw)
  {
    forall b {:trigger SamePayload(a0, a2, b, blk[b])} | b in blk && b !in free && b !in raw
      ensures SamePayload(a0, a2, b, blk[b])
    {
      assert SamePayload(a0, a1, b, blk[b]) && SamePayload(a1, a2, b, blk[b]);
    }
  }

  lemma PushLinks(a: seq<int>, blk: Blocks, free: seq<nat>, raw: set<nat>, avail: nat, b: nat)
    requires Ok(a, blk, free, raw, avail) && b in raw && b in blk && 4 <= blk[b] && b + blk[b] <= |a|
    requires a[b] == blk[b] && a[b + blk[b] - 1] == blk[b] && a[b + 1] == avail && a[b + 2] == 0
    requires avail != 0 ==> free != [] && avail == free[0]
    requires avail == 0 ==> free == []
    ensures var a' := SetIf(a, avail > 0, avail + 2, b);
            Ok(a', blk, [b] + free, raw - {b}, b) && PayloadKept(a, a', blk, free, raw)
  {
    var a', free' := SetIf(a, avail > 0, avail + 2, b), [b] + free;
    SameLengthTiled(a, a', blk);
    if free != [] {
      NodeFacts(a, blk, free, raw, avail, 0);
    }
    forall c {:trigger TagOk(a', blk, free', c)} | c in blk && c !in raw - {b} ensures TagOk(a', blk, free', c) {
      if c != b {
        assert TagOk(a, blk, free, c);
      }
      assert ExtentOk(a, blk, c);
    }
    forall c {:trigger SamePayload(a, a', c, blk[c])} | c in blk && c !in free && c !in raw
      ensures SamePayload(a, a', c, blk[c])
    {
      assert TagOk(a, blk, free, c);
      if free != [] {
        OtherBlock(a, blk, free[0], c, free[0] + 2);
      }
    }
    PushListed(a, blk, free, raw, avail, b);
  }

  lemma PushListed(a: seq<int>, blk: Blocks, free: seq<nat>, raw: set<nat>, avail: nat, b: nat)
    requires Ok(a, blk, free, raw, avail) && b in raw && b in blk && 4 <= blk[b] && b + blk[b] <= |a|
    requires a[b + 1] == avail && a[b + 2] == 0
    requires avail != 0 ==> free != [] && avail == free[0]
    requires avail == 0 ==> free == []
    ensures Listed(SetIf(a, avail > 0, avail + 2, b), blk, [b] + free, raw - {b}, b)
  {
    hide TagOk;
    var a', free' := SetIf(a, avail > 0, avail + 2, b), [b] + free;
    if free != [] {
      NodeFacts(a, blk, free, raw, avail, 0);
    }
    assert ExtentOk(a, blk, |a| - 2) && ExtentOk(a, blk, b);
    forall k {:trigger NodeOk(a', blk, free', raw - {b}, k)} | 0 <= k < |free'|
      ensures NodeOk(a', blk, free', raw - {b}, k)
    {
      if k == 0 {
        if free != [] {
          OtherBlock(a, blk, free[0], b, free[0] + 2);
        }
      } else {
        NodeFacts(a, blk, free, raw, avail, k - 1);
        assert NodeOk(a, blk, free, raw, k - 1);
        if k > 1 {
          OtherBlock(a, blk, free[0], free[k - 1], free[0] + 2);
        }
      }
    }
    forall j, k | 0 <= j < k < |free'| ensures free'[j] != free'[k] {
      assert NodeOk(a, blk, free, raw, k - 1);
    }
  }
}
