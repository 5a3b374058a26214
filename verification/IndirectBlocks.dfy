/**
 * What read_block finds compared with the layout of ext2, in which a tree of one, two or three levels of
 * blocks full of block numbers stands behind the last three numbers of an i-node.
 */
module IndirectBlocks {
  import opened BlockIo

  // ---------- the layout ----------

  function Power(p: nat, level: nat): (r: nat)
    ensures p > 0 ==> r > 0
  {
    if level == 0 then 1 else p * Power(p, level - 1)
  }

  /** Leaf k of the tree of so many levels whose root is block b; p entries of four bytes fill a block. */
  ghost function Leaf(disk: seq<Byte>, bs: nat, b: nat, level: nat, k: nat): nat
    requires bs >= 4
    decreases level
  {
    if level == 0 then b
    else
      var below := Power(bs / 4, level - 1);
      Leaf(disk, bs, EntryOn(disk, IndexAt(b, bs, k / below)), level - 1, k % below)
  }

  /** All blocks on the way to leaf k are on the disk. */
  ghost predicate PathOk(disk: seq<Byte>, bs: nat, b: nat, level: nat, k: nat)
    requires bs >= 4
    decreases level
  {
    OnDisk(b, bs) &&
    (level > 0 ==>
      var below := Power(bs / 4, level - 1);
      PathOk(disk, bs, EntryOn(disk, IndexAt(b, bs, k / below)), level - 1, k % below))
  }

  /** The number in the i-node, the levels below it and the leaf for block n of a file. */
  function Root(bs: nat, n: nat): (r: (nat, nat, nat))
    requires bs >= 4
    ensures r.0 < 15
  {
    var p := bs / 4;
    if n < 12 then (n, 0, 0)
    else if n < 12 + p then (12, 1, n - 12)
    else if n < 12 + p + Power(p, 2) then (13, 2, n - 12 - p)
    else (14, 3, n - 12 - p - Power(p, 2))
  }

  ghost function LayoutBlock(disk: seq<Byte>, data: seq<nat>, bs: nat, n: nat): nat
    requires |data| == 15 && bs >= 4
  {
    var r := Root(bs, n);
    Leaf(disk, bs, data[r.0], r.1, r.2)
  }

  ghost predicate LayoutOkAt(disk: seq<Byte>, data: seq<nat>, bs: nat, n: nat)
    requires |data| == 15 && bs >= 4
  {
    var r := Root(bs, n);
    PathOk(disk, bs, data[r.0], r.1, r.2)
  }

  ghost predicate LayoutOk(disk: seq<Byte>, data: seq<nat>, bs: nat, size: nat)
    requires |data| == 15 && bs >= 4
  {
    forall n :: InUse(bs, size, n) ==> LayoutOkAt(disk, data, bs, n)
  }

  ghost function LayoutByte(disk: seq<Byte>, data: seq<nat>, bs: nat, k: nat): Byte
    requires |data| == 15 && bs >= 4
  {
    DiskByte(disk, StartOf(LayoutBlock(disk, data, bs, k / bs), bs) + k % bs)
  }

  /** What a file contains, whoever reads it. */
  ghost function LayoutContent(disk: seq<Byte>, data: seq<nat>, bs: nat, size: nat): (c: seq<Byte>)
    requires |data| == 15 && bs >= 4
    ensures |c| == size
  {
    seq(size, (k: nat) => LayoutByte(disk, data, bs, k))
  }

  // ---------- where both agree ----------

  lemma PowerTwo(p: nat)
    ensures Power(p, 0) == 1 && Power(p, 1) == p && Power(p, 2) == Squared(p)
  {
    assert Power(p, 1) == p * Power(p, 0);
    assert Power(p, 2) == p * Power(p, 1);
  }

  lemma OneLevel(disk: seq<Byte>, bs: nat, b: nat, k: nat)
    requires bs >= 4
    ensures Leaf(disk, bs, b, 1, k) == EntryOn(disk, IndexAt(b, bs, k))
    ensures PathOk(disk, bs, b, 1, k) ==> OnDisk(EntryOn(disk, IndexAt(b, bs, k)), bs)
  {
    hide EntryOn, IndexAt;
    PowerTwo(bs / 4);
    assert k / 1 == k && k % 1 == 0;
  }

  lemma TwoLevels(disk: seq<Byte>, bs: nat, b: nat, k: nat)
    requires bs >= 4
    ensures var table := EntryOn(disk, IndexAt(b, bs, k / (bs / 4)));
            && Leaf(disk, bs, b, 2, k) == Leaf(disk, bs, table, 1, k % (bs / 4))
            && (PathOk(disk, bs, b, 2, k) ==> OnDisk(table, bs) && PathOk(disk, bs, table, 1, k % (bs / 4)))
  {
    hide EntryOn, IndexAt;
    PowerTwo(bs / 4);
  }

  lemma OnDiskPlace(b: nat, bs: nat)
    requires OnDisk(b, bs)
    ensures b * bs % WORDS32 == b * bs
  {
    SmallWord(b * bs);
  }

  /** Direct and singly indirect blocks are read from the right place, and so is the first doubly indirect one. */
  lemma SamePlace(disk: seq<Byte>, data: seq<nat>, bs: nat, n: nat)
    requires |data| == 15 && bs >= 8 && n <= 12 + bs / 4 && LayoutOkAt(disk, data, bs, n)
    ensures PlaceOf(disk, data, bs, n) == LayoutBlock(disk, data, bs, n) * bs
  {
    hide EntryOn, IndexAt, Leaf, PathOk, Trebly, OnDisk;
    var p := bs / 4;
    PowerTwo(p);
    assert Squared(p) > 0;
    hide Squared;
    if n < 12 {
      DirectPath(disk, bs, data[n]);
      OnDiskPlace(data[n], bs);
    } else if n < 12 + p {
      OneLevel(disk, bs, data[12], n - 12);
      OnDiskPlace(EntryOn(disk, IndexAt(data[12], bs, n - 12)), bs);
    } else {
      var table := EntryOn(disk, IndexAt(data[13], bs, 0 / p));
      TwoLevels(disk, bs, data[13], 0);
      OneLevel(disk, bs, table, 0 % p);
      OnDiskPlace(table, bs);
      FirstEntry(table, bs);
      OnDiskPlace(EntryOn(disk, IndexAt(table, bs, 0)), bs);
    }
  }

  lemma FirstEntry(b: nat, bs: nat)
    ensures IndexAt(b, bs, 0) == b * bs
  {
  }

  lemma DirectPath(disk: seq<Byte>, bs: nat, b: nat)
    requires bs >= 4
    ensures Leaf(disk, bs, b, 0, 0) == b && (PathOk(disk, bs, b, 0, 0) ==> OnDisk(b, bs))
  {
  }

  /** A file that needs at most one doubly indirect block is read as it is. */
  lemma SmallFilesRead(disk: seq<Byte>, data: seq<nat>, bs: nat, size: nat)
    requires FileOk(disk, data, bs, size) && |data| == 15 && bs >= 8
    requires LayoutOk(disk, data, bs, size) && size <= (13 + bs / 4) * bs
    ensures FileContent(disk, data, bs, size) == LayoutContent(disk, data, bs, size)
  {
    hide FileOk, PlaceOf, LayoutBlock, LayoutOkAt;
    var c, d := FileContent(disk, data, bs, size), LayoutContent(disk, data, bs, size);
    forall k | 0 <= k < size ensures c[k] == d[k] {
      BlockBounds(k, bs);
      NotBeyond(k / bs, 13 + bs / 4, bs, size);
      assert InUse(bs, size, k / bs);
      SamePlace(disk, data, bs, k / bs);
      assert c[k] == FileByte(disk, data, bs, k) && d[k] == LayoutByte(disk, data, bs, k);
    }
  }

  /** Byte j of block n of a file is byte j from its place on. */
  lemma ByteOfBlock(disk: seq<Byte>, data: seq<nat>, bs: nat, size: nat, n: nat, j: nat)
    requires FileOk(disk, data, bs, size) && |data| == 15 && bs >= 8 && j < bs && StartOf(n, bs) + j < size
    ensures PlaceOf(disk, data, bs, n) + j < |disk|
    ensures FileContent(disk, data, bs, size)[n * bs + j] == disk[PlaceOf(disk, data, bs, n) + j]
  {
    hide FileOk, PlaceOf;
    FileShape(disk, data, bs, size);
    DivUnique(n, j, bs);
    NumberInRange(disk, data, bs, size, n);
    assert FileContent(disk, data, bs, size)[n * bs + j] == FileByte(disk, data, bs, n * bs + j);
  }

  // ---------- where they do not ----------

  /** A disk whose block 1 consists of the number 1 throughout. */
  function OnesByte(bs: nat, i: nat): Byte {
    if bs <= i < 2 * bs && i % 4 == 0 then 1 else 0
  }

  ghost function OnesDisk(bs: nat): (disk: seq<Byte>)
    ensures |disk| == WORDS32
  {
    seq(WORDS32, (i: nat) => OnesByte(bs, i))
  }

  /** The block sizes of ext2 in question. */
  predicate Usual(bs: nat) {
    bs == 1024 || bs == 2048 || bs == 4096
  }

  /** The places that any reading of block 1, in or out of step, leads to. */
  predicate Nearby(bs: nat, at: nat) {
    at == 0 || at == bs || at == 0x100 * bs || at == 0x1_0000 * bs
  }

  lemma OnesEntry(bs: nat, t: nat, i: nat)
    requires Usual(bs) && Nearby(bs, t) && i + 4 <= bs && (t == bs || i <= bs / 4)
    ensures Nearby(bs, BlockAt(OnesDisk(bs), bs, t + i))
    ensures t == bs && i % 4 == 0 ==> EntryOn(OnesDisk(bs), t + i) == 1
    ensures t == bs && i % 4 == 1 ==> BlockAt(OnesDisk(bs), bs, t + i) == 0
  {
    hide OnesByte;
    var d, at := OnesDisk(bs), t + i;
    assert d[at..at + 4] == [OnesByte(bs, at), OnesByte(bs, at + 1), OnesByte(bs, at + 2), OnesByte(bs, at + 3)];
    OnesBytes(bs, t, i);
  }

  /** At most one of four bytes in a row is 1. */
  lemma OnesBytes(bs: nat, t: nat, i: nat)
    requires Usual(bs) && Nearby(bs, t) && i + 4 <= bs && (t == bs || i <= bs / 4)
    ensures var at := t + i;
            var b := [OnesByte(bs, at), OnesByte(bs, at + 1), OnesByte(bs, at + 2), OnesByte(bs, at + 3)];
            if t != bs then b == [0, 0, 0, 0]
            else if i % 4 == 0 then b == [1, 0, 0, 0]
            else if i % 4 == 1 then b == [0, 0, 0, 1]
            else if i % 4 == 2 then b == [0, 0, 1, 0]
            else b == [0, 1, 0, 0]
  {
  }

  function Ones(): (data: seq<nat>)
    ensures |data| == 15 && forall i :: 0 <= i < 15 ==> data[i] == 1
  {
    seq(15, _ => 1)
  }

  lemma OneOnDisk(bs: nat)
    requires Usual(bs)
    ensures bs >= 8 && bs % 4 == 0 && OnDisk(1, bs)
  {
  }

  lemma LeafBelow(p: nat, level: nat, k: nat)
    requires level > 0 && k < Power(p, level)
    ensures Power(p, level - 1) > 0 && k / Power(p, level - 1) < p && k % Power(p, level - 1) < Power(p, level - 1)
  {
    InRow(k, p, Power(p, level - 1));
  }

  /** In the layout every block of the file is block 1. */
  lemma {:induction false} OnesLeaf(bs: nat, level: nat, k: nat)
    requires Usual(bs) && k < Power(bs / 4, level)
    ensures bs >= 4 && Leaf(OnesDisk(bs), bs, 1, level, k) == 1 && PathOk(OnesDisk(bs), bs, 1, level, k)
    decreases level
  {
    hide EntryOn, OnesDisk, IndexAt, Power, Usual, OnDisk;
    OneOnDisk(bs);
    if level > 0 {
      var below := Power(bs / 4, level - 1);
      LeafBelow(bs / 4, level, k);
      OnesNumber(bs, k / below);
      OnesLeaf(bs, level - 1, k % below);
    }
  }

  lemma OnesNumber(bs: nat, k: nat)
    requires Usual(bs) && k < bs / 4
    ensures EntryOn(OnesDisk(bs), IndexAt(1, bs, k)) == 1
  {
    hide EntryOn, OnesDisk;
    OnesIndex(bs, k);
    OnesEntry(bs, bs, 4 * k);
  }

  lemma Powers(bs: nat)
    requires Usual(bs)
    ensures var p := bs / 4;
            && Power(p, 0) == 1 && Power(p, 1) == p && Power(p, 2) == Squared(p) && Power(p, 3) == p * Squared(p)
            && Squared(p) == (if bs == 1024 then 0x1_0000 else if bs == 2048 then 0x4_0000 else 0x10_0000)
  {
    PowerTwo(bs / 4);
    assert Power(bs / 4, 3) == bs / 4 * Power(bs / 4, 2);
  }

  lemma RootInRange(bs: nat, n: nat)
    requires Usual(bs) && n * bs < WORDS32
    ensures n < MostBlocks(bs)
    ensures Root(bs, n).2 < Power(bs / 4, Root(bs, n).1)
  {
    hide Squared, Power;
    Powers(bs);
    NotBeyond(n, 0x40_0000, bs, WORDS32);
  }

  lemma OnesLayout(bs: nat, size: nat)
    requires Usual(bs) && size < WORDS32
    ensures LayoutOk(OnesDisk(bs), Ones(), bs, size)
    ensures forall n :: InUse(bs, size, n) ==> LayoutBlock(OnesDisk(bs), Ones(), bs, n) == 1
  {
    hide Root, Leaf, PathOk, OnesDisk;
    forall n | InUse(bs, size, n)
      ensures LayoutOkAt(OnesDisk(bs), Ones(), bs, n) && LayoutBlock(OnesDisk(bs), Ones(), bs, n) == 1
    {
      RootInRange(bs, n);
      OnesLeaf(bs, Root(bs, n).1, Root(bs, n).2);
    }
  }

  /** Reading out of step still stays on this disk. */
  lemma OnesPlace(bs: nat, n: nat)
    requires Usual(bs) && n < MostBlocks(bs)
    ensures Nearby(bs, PlaceOf(OnesDisk(bs), Ones(), bs, n))
  {
    hide BlockAt, OnesDisk, Doubly, Trebly, Nearby;
    var p := bs / 4;
    if n < 12 {
      OnesDirect(bs);
    } else if n < 12 + p {
      OnesDirect(bs);
      OnesEntry(bs, bs, 4 * (n - 12));
      OnesIndex(bs, n - 12);
    } else if n < 12 + p + Squared(p) {
      OnesDoubly(bs, n - 12 - p);
    } else {
      OnesTrebly(bs, n - 12 - p - Squared(p));
    }
  }

  lemma OnesDirect(bs: nat)
    requires Usual(bs)
    ensures 1 * bs % WORDS32 == bs && Nearby(bs, bs)
  {
  }

  lemma OnesIndex(bs: nat, k: nat)
    ensures IndexAt(1, bs, k) == bs + 4 * k
  {
  }

  lemma OnesDoubly(bs: nat, m: nat)
    requires Usual(bs) && m < Squared(bs / 4)
    ensures Nearby(bs, Doubly(OnesDisk(bs), Ones(), bs, m))
  {
    hide BlockAt, OnesDisk, Nearby;
    var p := bs / 4;
    InRow(m, p, p);
    OnesDirect(bs);
    OnesIndex(bs, m / p);
    OnesEntry(bs, bs, 4 * (m / p));
    OnesEntry(bs, BlockAt(OnesDisk(bs), bs, DoublyAt(Ones(), bs, m)), m % p);
  }

  lemma OnesTrebly(bs: nat, m: nat)
    requires Usual(bs) && m < bs / 4 * Squared(bs / 4)
    ensures Nearby(bs, Trebly(OnesDisk(bs), Ones(), bs, m))
  {
    hide BlockAt, OnesDisk, Nearby, Squared;
    var p, q := bs / 4, Squared(bs / 4);
    TreblyRows(m, p);
    OnesDirect(bs);
    OnesIndex(bs, m / q);
    OnesEntry(bs, bs, 4 * (m / q));
    OnesEntry(bs, BlockAt(OnesDisk(bs), bs, TreblyAt(Ones(), bs, m)), m % q / p);
    OnesEntry(bs, BlockAt(OnesDisk(bs), bs, TreblySecond(OnesDisk(bs), Ones(), bs, m)), m % p);
  }

  lemma OnesFileOk(bs: nat, size: nat)
    requires Usual(bs) && size < WORDS32
    ensures FileOk(OnesDisk(bs), Ones(), bs, size)
  {
    hide PlaceOf, OnesDisk;
    forall n | InUse(bs, size, n) ensures Readable(OnesDisk(bs), Ones(), bs, n) {
      RootInRange(bs, n);
      OnesPlace(bs, n);
    }
  }

  /** With a second doubly indirect block the file is misread: its first byte is taken from block 0. */
  lemma LargeFileMisread(bs: nat, size: nat)
    requires Usual(bs) && (13 + bs / 4) * bs < size < WORDS32
    ensures FileOk(OnesDisk(bs), Ones(), bs, size) && LayoutOk(OnesDisk(bs), Ones(), bs, size)
    ensures FileContent(OnesDisk(bs), Ones(), bs, size)[(13 + bs / 4) * bs] == 0
    ensures LayoutContent(OnesDisk(bs), Ones(), bs, size)[(13 + bs / 4) * bs] == 1
  {
    hide PlaceOf, LayoutBlock, LayoutOk, FileOk;
    var n := 13 + bs / 4;
    var k := n * bs;
    OnesFileOk(bs, size);
    OnesLayout(bs, size);
    assert InUse(bs, size, n);
    DivUnique(n, 0, bs);
    SecondPlace(bs);
    assert FileByte(OnesDisk(bs), Ones(), bs, k) == DiskByte(OnesDisk(bs), 0);
    assert LayoutByte(OnesDisk(bs), Ones(), bs, k) == DiskByte(OnesDisk(bs), bs);
  }

  lemma SecondPlace(bs: nat)
    requires Usual(bs)
    ensures PlaceOf(OnesDisk(bs), Ones(), bs, 13 + bs / 4) == 0
  {
    hide BlockAt, OnesDisk;
    OnesIndex(bs, 0);
    OnesEntry(bs, bs, 0);
    OnesEntry(bs, bs, 1);
    FirstOne(bs);
  }

  lemma FirstOne(bs: nat)
    requires Usual(bs)
    ensures BlockAt(OnesDisk(bs), bs, bs) == bs
  {
    hide EntryOn, OnesDisk;
    OnesEntry(bs, bs, 0);
  }

  /** Files of a size are read as they are laid out, on every disk, exactly if they need no second doubly
      indirect block. */
  lemma FilesRead(bs: nat, size: nat)
    requires Usual(bs) && size < WORDS32
    ensures size <= (13 + bs / 4) * bs <==>
      forall disk, data :: FileOk(disk, data, bs, size) && |data| == 15 && LayoutOk(disk, data, bs, size) ==>
        FileContent(disk, data, bs, size) == LayoutContent(disk, data, bs, size)
  {
    hide FileOk, LayoutOk, FileContent, LayoutContent;
    if size <= (13 + bs / 4) * bs {
      forall disk, data | FileOk(disk, data, bs, size) && |data| == 15 && LayoutOk(disk, data, bs, size)
        ensures FileContent(disk, data, bs, size) == LayoutContent(disk, data, bs, size)
      {
        SmallFilesRead(disk, data, bs, size);
      }
    } else {
      LargeFileMisread(bs, size);
    }
  }
}
