/**
 * Reading bytes from devices made of blocks (kernel/block_io.cc), for a disk of sectors
 * (kernel/ide.h) and for a file on it (Node::read_block, kernel/ext2.cc; FileDescriptor, kernel/sys.cc).
 */
module BlockIo {
  type Byte = x: int | 0 <= x < 256

  datatype Option<T> = None | Some(value: T)

  const SECTOR := 512
  const WORDS32 := 0x1_0000_0000
  const DIRECT := 12
  const NO_BLOCK := 0xFFFF_FFFF

  function Min(a: nat, b: nat): nat {
    if a < b then a else b
  }

  /** A 32-bit word stored least significant byte first. */
  function Word32(b: seq<Byte>): (w: nat)
    requires |b| == 4
    ensures w < WORDS32
  {
    var b0: int, b1: int, b2: int, b3: int := b[0], b[1], b[2], b[3];
    b0 + 0x100 * b1 + 0x1_0000 * b2 + 0x100_0000 * b3
  }

  /** Byte i of the word is b[i], counted from the least significant one. */
  lemma Word32Bytes(b: seq<Byte>)
    requires |b| == 4
    ensures Word32(b) % 0x100 == b[0] && Word32(b) / 0x100 % 0x100 == b[1]
    ensures Word32(b) / 0x1_0000 % 0x100 == b[2] && Word32(b) / 0x100_0000 == b[3]
  {
    var q3: nat := b[3];
    var q2: nat := b[2] + 0x100 * q3;
    var q1: nat := b[1] + 0x100 * q2;
    assert Word32(b) == b[0] + 0x100 * q1;
    assert Word32(b) / 0x100 == q1 && q1 / 0x100 == q2 && q2 / 0x100 == q3;
  }

  function Encode(w: nat): (b: seq<Byte>)
    requires w < WORDS32
    ensures |b| == 4 && Word32(b) == w
  {
    var q := w / 0x100;
    var h := q / 0x100;
    [w % 0x100, q % 0x100, h % 0x100, h / 0x100]
  }

  // ---------- what a file contains ----------

  /** The word at a byte of the disk. */
  ghost function EntryOn(disk: seq<Byte>, at: nat): nat {
    if at + 4 <= |disk| then Word32(disk[at..at + 4]) else 0
  }

  /** The four bytes at at say e, the least significant one first. */
  ghost predicate EntryIs(disk: seq<Byte>, at: nat, e: nat) {
    && at + 4 <= |disk| && e / 0x100_0000 == disk[at + 3]
    && e % 0x100 == disk[at] && e / 0x100 % 0x100 == disk[at + 1] && e / 0x1_0000 % 0x100 == disk[at + 2]
  }

  lemma EntryOnIs(disk: seq<Byte>, at: nat)
    requires at + 4 <= |disk|
    ensures EntryIs(disk, at, EntryOn(disk, at))
  {
    hide Word32;
    Word32Bytes(disk[at..at + 4]);
  }

  /** Entry k of block b, of four bytes, is the number of the block that starts at place, in 32 bits. */
  ghost predicate NamedBy(disk: seq<Byte>, b: nat, bs: nat, k: nat, place: nat) {
    exists e: nat :: EntryIs(disk, b * bs + 4 * k, e) && place == e * bs % 0x1_0000_0000
  }

  lemma BlockIsNamed(disk: seq<Byte>, b: nat, bs: nat, k: nat)
    requires IndexAt(b, bs, k) + 4 <= |disk|
    ensures NamedBy(disk, b, bs, k, BlockAt(disk, bs, IndexAt(b, bs, k)))
  {
    hide EntryIs, EntryOn;
    EntryOnIs(disk, b * bs + 4 * k);
  }

  /** Where the block starts whose number stands at a byte of the disk, in 32 bits. */
  ghost function BlockAt(disk: seq<Byte>, bs: nat, at: nat): nat {
    EntryOn(disk, at) * bs % WORDS32
  }

  /** Where read_block looks for block number of a file: direct, singly, doubly and trebly indirect. In a
      block that it found in another indirect block it reads the number at byte i instead of entry i. */
  ghost function PlaceOf(disk: seq<Byte>, data: seq<nat>, bs: nat, number: nat): nat
    requires |data| == 15 && bs >= 4
  {
    var p := bs / 4;
    if number < DIRECT then data[number] * bs % WORDS32
    else if number - DIRECT < p then BlockAt(disk, bs, IndexAt(data[DIRECT], bs, number - DIRECT))
    else if number - DIRECT - p < Squared(p) then Doubly(disk, data, bs, number - DIRECT - p)
    else Trebly(disk, data, bs, number - DIRECT - p - Squared(p))
  }

  /** Where entry k of block b stands. */
  function IndexAt(b: nat, bs: nat, k: nat): nat {
    b * bs + k * 4
  }

  ghost function Doubly(disk: seq<Byte>, data: seq<nat>, bs: nat, m: nat): nat
    requires |data| == 15 && bs >= 4
  {
    BlockAt(disk, bs, BlockAt(disk, bs, DoublyAt(data, bs, m)) + m % (bs / 4))
  }

  /** Where the entry for block m stands in the doubly indirect block. */
  function DoublyAt(data: seq<nat>, bs: nat, m: nat): nat
    requires |data| == 15 && bs >= 4
  {
    IndexAt(data[13], bs, m / (bs / 4))
  }

  ghost function Trebly(disk: seq<Byte>, data: seq<nat>, bs: nat, m: nat): nat
    requires |data| == 15 && bs >= 4
  {
    BlockAt(disk, bs, BlockAt(disk, bs, TreblySecond(disk, data, bs, m)) + m % (bs / 4))
  }

  function TreblyAt(data: seq<nat>, bs: nat, m: nat): nat
    requires |data| == 15 && bs >= 4
  {
    IndexAt(data[14], bs, m / Squared(bs / 4))
  }

  ghost function TreblySecond(disk: seq<Byte>, data: seq<nat>, bs: nat, m: nat): nat
    requires |data| == 15 && bs >= 4
  {
    BlockAt(disk, bs, TreblyAt(data, bs, m)) + m % Squared(bs / 4) / (bs / 4)
  }

  function Squared(p: nat): (q: nat)
    ensures p > 0 ==> q > 0
  {
    p * p
  }

  /** Block b lies on the disk, below the last byte a 32-bit offset can reach. */
  ghost predicate OnDisk(b: nat, bs: nat) {
    b * bs + bs < WORDS32
  }

  /** How many blocks the fifteen numbers of an i-node can name. */
  function MostBlocks(bs: nat): nat {
    var p := bs / 4;
    DIRECT + p + Squared(p) + p * Squared(p)
  }

  /** A file of size bytes in blocks whose size is a power of two. Its indirect blocks are on the disk, and no
      place it is read from is the very last block, of which the disk can give all bytes but one. */
  ghost predicate FileOk(disk: seq<Byte>, data: seq<nat>, bs: nat, size: nat) {
    && |disk| == WORDS32 && |data| == 15 && bs >= 8 && bs % 4 == 0 && bs < WORDS32 && WORDS32 % bs == 0
    && size < WORDS32 && size <= MostBlocks(bs) * bs
    && (size > DIRECT * bs ==> OnDisk(data[DIRECT], bs))
    && (size > (DIRECT + bs / 4) * bs ==> OnDisk(data[13], bs))
    && (size > (DIRECT + bs / 4 + Squared(bs / 4)) * bs ==> OnDisk(data[14], bs))
    && forall i :: InUse(bs, size, i) ==> Readable(disk, data, bs, i)
  }

  ghost predicate InUse(bs: nat, size: nat, i: nat) {
    i * bs < size
  }

  ghost predicate Readable(disk: seq<Byte>, data: seq<nat>, bs: nat, i: nat)
    requires |data| == 15 && bs >= 4
  {
    PlaceOf(disk, data, bs, i) + bs < WORDS32
  }

  function DiskByte(disk: seq<Byte>, at: nat): Byte {
    if at < |disk| then disk[at] else 0
  }

  ghost function FileByte(disk: seq<Byte>, data: seq<nat>, bs: nat, k: nat): Byte
    requires |data| == 15 && bs >= 4
  {
    DiskByte(disk, PlaceOf(disk, data, bs, k / bs) + k % bs)
  }

  ghost function FileContent(disk: seq<Byte>, data: seq<nat>, bs: nat, size: nat): (c: seq<Byte>)
    requires |data| == 15 && bs >= 4
    ensures |c| == size
  {
    seq(size, (k: nat) => FileByte(disk, data, bs, k))
  }

  // ---------- arithmetic of blocks ----------

  /** Where block number of a device starts. */
  function StartOf(number: nat, bs: nat): nat {
    number * bs
  }

  lemma BlockBounds(offset: nat, bs: nat)
    requires bs > 0
    ensures offset == StartOf(offset / bs, bs) + offset % bs && offset % bs < bs
  {
  }

  lemma DivUnique(q: nat, r: nat, bs: nat)
    requires bs > 0 && r < bs
    ensures (q * bs + r) / bs == q && (q * bs + r) % bs == r
  {
    var n := q * bs + r;
    var a, b := n / bs, n % bs;
    assert n == a * bs + b;
    if a < q {
      MulOrder(a + 1, q, bs);
    } else if q < a {
      MulOrder(q + 1, a, bs);
    }
  }

  lemma MulOrder(a: nat, b: nat, bs: nat)
    requires a <= b
    ensures a * bs <= b * bs
  {
  }

  // ---------- buffers ----------

  /** b with the bytes of c in it from position at on. */
  function Overwrite(b: seq<Byte>, at: nat, c: seq<Byte>): (r: seq<Byte>)
    requires at + |c| <= |b|
    ensures |r| == |b|
  {
    b[..at] + c + b[at + |c|..]
  }

  lemma OverwriteTwice(b: seq<Byte>, at: nat, c: seq<Byte>, d: seq<Byte>)
    requires at + |c| + |d| <= |b|
    ensures Overwrite(Overwrite(b, at, c), at + |c|, d) == Overwrite(b, at, c + d)
  {
  }

  lemma OverwriteAll(b: seq<Byte>, c: seq<Byte>)
    requires |c| == |b|
    ensures Overwrite(b, 0, c) == c
  {
  }

  lemma OverwriteNothing(b: seq<Byte>, at: nat)
    requires at <= |b|
    ensures Overwrite(b, at, []) == b
  {
  }

  lemma OverwriteNext(b: seq<Byte>, at: nat, c: seq<Byte>, x: Byte)
    requires at + |c| < |b|
    ensures Overwrite(b, at, c)[at + |c| := x] == Overwrite(b, at, c + [x])
  {
  }

  /** memcpy of n bytes */
  method Copy(src: array<Byte>, from: nat, dst: array<Byte>, at: nat, n: nat)
    requires src != dst && from + n <= src.Length && at + n <= dst.Length
    modifies dst
    ensures dst[..] == Overwrite(old(dst[..]), at, src[from..from + n])
  {
    hide Overwrite;
    ghost var b := dst[..];
    OverwriteNothing(b, at);
    assert src[from..from + 0] == [];
    var i := 0;
    while i < n
      invariant i <= n && dst[..] == Overwrite(b, at, src[from..from + i])
    {
      OverwriteNext(b, at, src[from..from + i], src[from + i]);
      assert src[from..from + i + 1] == src[from..from + i] + [src[from + i]];
      dst[at + i] := src[from + i];
      i := i + 1;
    }
  }

  /** At most n bytes of c from position o on. */
  function Slice(c: seq<Byte>, o: nat, n: nat): (r: seq<Byte>)
    ensures |r| == if o > |c| then 0 else Min(n, |c| - o)
  {
    if o > |c| then [] else c[o..o + Min(n, |c| - o)]
  }

  lemma SliceTwice(c: seq<Byte>, o: nat, k: nat, n: nat)
    requires o + k <= |c| && k <= n
    ensures |Slice(c, o, k)| == k && Slice(c, o, k) + Slice(c, o + k, n - k) == Slice(c, o, n)
  {
  }

  lemma SliceEnd(c: seq<Byte>, o: nat, n: nat, k: nat)
    requires o <= |c| && k == Min(n, |c| - o)
    ensures Slice(c, o, k) == Slice(c, o, n)
  {
  }

  // ---------- devices ----------

  /** The base class with its two implementations: a disk has no device under it, a file has. */
  class BlockIO {
    const blockSize: nat
    const ide: BlockIO?
    const size: nat
    const data: seq<nat>
    const sectors: seq<seq<Byte>>
    ghost const disk: seq<Byte>
    var cache: array?<Byte>
    var cacheNum: nat

    ghost predicate IsDisk() {
      && ide == null && blockSize == SECTOR && size == WORDS32 - 1 && |disk| == WORDS32
      && |sectors| == WORDS32 / SECTOR
      && forall i {:trigger sectors[i]} :: 0 <= i < |sectors| ==> sectors[i] == disk[i * SECTOR..i * SECTOR + SECTOR]
    }

    ghost predicate IsFile() {
      && ide != null && ide.IsDisk() && ide.disk == disk && FileOk(disk, data, blockSize, size)
    }

    ghost predicate Sound() {
      if ide == null then IsDisk() else IsFile()
    }

    /** The cache of a file, when it names a block, holds that block. */
    ghost predicate Valid()
      reads this, cache
    {
      Sound() && (ide != null ==> CacheOk())
    }

    ghost predicate CacheOk()
      requires Sound() && ide != null
      reads this, cache
    {
      && (cache != null ==> cache.Length == blockSize)
      && (cacheNum != NO_BLOCK ==>
          StartOf(cacheNum, blockSize) < size && cache != null &&
              cache[..] == FileBlock(disk, data, blockSize, cacheNum))
    }

    /** What reading may change besides the buffer: a file's cache. */
    ghost function Cache(): set<object>
      reads this
    {
      if ide == null then {} else if cache == null then {this} else {this, cache}
    }

    ghost function Content(): (c: seq<Byte>)
      requires Sound()
      ensures |c| == size
    {
      if ide == null then disk[..size] else FileContent(disk, data, blockSize, size)
    }

    /** The bytes of one block. */
    ghost function BlockOf(number: nat): (b: seq<Byte>)
      requires Sound() && StartOf(number, blockSize) < size
      ensures |b| == blockSize
    {
      if ide == null then disk[number * SECTOR..number * SECTOR + SECTOR] else FileBlock(disk, data, blockSize, number)
    }

    /** Ide */
    constructor Disk(sectors: seq<seq<Byte>>, ghost disk: seq<Byte>)
      requires |disk| == WORDS32 && |sectors| == WORDS32 / SECTOR
      requires forall i {:trigger sectors[i]} :: 0 <= i < |sectors| ==>
          sectors[i] == disk[i * SECTOR..i * SECTOR + SECTOR]
      ensures Valid() && IsDisk() && this.disk == disk && Content() == disk[..0xFFFF_FFFF] && blockSize == 512
    {
      blockSize := SECTOR;
      ide := null;
      size := WORDS32 - 1;
      data := [];
      this.disk := disk;
      this.sectors := sectors;
      cache := null;
      cacheNum := NO_BLOCK;
    }

    /** Node, as getInode makes it */
    constructor File(ide: BlockIO, blockSize: nat, size: nat, data: seq<nat>)
      requires ide.IsDisk() && FileOk(ide.disk, data, blockSize, size)
      ensures Valid() && IsFile() && this.ide == ide && Content() == FileContent(ide.disk, data, blockSize, size)
      ensures this.blockSize == blockSize && this.size == size && this.data == data && disk == ide.disk && cache == null
    {
      this.blockSize := blockSize;
      this.ide := ide;
      this.size := size;
      this.data := data;
      this.disk := ide.disk;
      this.sectors := [];
      cache := null;
      cacheNum := NO_BLOCK;
    }

    ghost function Level(): nat {
      if ide == null then 0 else 1
    }

    /** What the device gives for one sector number. */
    function SectorOf(number: nat): (b: seq<Byte>)
      requires Sound() && ide == null && StartOf(number, blockSize) < size
      ensures |b| == SECTOR && b == BlockOf(number)
    {
      sectors[number]
    }

    /** Ide::read_block */
    method ReadSector(number: nat, buffer: array<Byte>, at: nat)
      requires Sound() && ide == null && StartOf(number, blockSize) < size && at + SECTOR <= buffer.Length
      modifies buffer
      ensures buffer[..] == Overwrite(old(buffer[..]), at, BlockOf(number))
    {
      hide Overwrite;
      ghost var b := buffer[..];
      var sector := SectorOf(number);
      OverwriteNothing(b, at);
      assert sector[..0] == [];
      var i := 0;
      while i < SECTOR
        invariant i <= SECTOR && buffer[..] == Overwrite(b, at, sector[..i])
      {
        OverwriteNext(b, at, sector[..i], sector[i]);
        assert sector[..i + 1] == sector[..i] + [sector[i]];
        buffer[at + i] := sector[i];
        i := i + 1;
      }
      assert sector[..SECTOR] == sector;
    }

    /** Node::read_block: where the block is looked for. */
    method FindBlock(number: nat) returns (offset: nat)
      requires Sound() && ide != null && StartOf(number, blockSize) < size
      ensures offset == PlaceOf(disk, data, blockSize, number) && offset + blockSize < WORDS32
      ensures number < 12 ==> offset == data[number] * blockSize % 0x1_0000_0000
      ensures 12 <= number < 12 + blockSize / 4 ==>
        NamedBy(disk, data[12], blockSize, number - 12, offset)
      decreases 1, 1
    {
      hide FileOk, IsDisk, PlaceOf, BlockAt, EntryOn, EntryIs, Doubly, Trebly, Word32, IndexAt;
      FileShape(disk, data, blockSize, size);
      PlaceRead(disk, data, blockSize, size, number);
      SinglyIs(number);
      if number < DIRECT {
        return data[number] * blockSize % WORDS32;
      }
      var m := number - DIRECT;
      var pc1 := blockSize / 4;
      if m < pc1 {
        offset := ReadBlockNumber(IndexAt(data[DIRECT], blockSize, m));
        return;
      }
      m := m - pc1;
      var pc2 := pc1 * pc1 % WORDS32;
      if m < pc2 {
        offset := FindDoubly(m, pc1);
      } else {
        offset := FindTrebly(m - pc2, pc1, pc2);
      }
    }

    /** The branch for doubly indirect blocks. */
    method FindDoubly(m: nat, pc1: nat) returns (offset: nat)
      requires IsFile() && pc1 == blockSize / 4 && m < Squared(pc1)
      requires (DIRECT + pc1 + m) * blockSize < size
      ensures offset == Doubly(disk, data, blockSize, m)
      decreases 1, 0, 2
    {
      hide FileOk, IsDisk, BlockAt, EntryOn, Squared, IndexAt;
      FileShape(disk, data, blockSize, size);
      DoublyRead(disk, data, blockSize, size, m);
      offset := ReadBlockNumber(DoublyAt(data, blockSize, m));
      offset := ReadBlockNumber((offset + m % pc1) % WORDS32);
    }

    /** The branch for trebly indirect blocks. */
    method FindTrebly(m: nat, pc1: nat, pc2: nat) returns (offset: nat)
      requires IsFile() && pc1 == blockSize / 4 && pc2 == Squared(pc1)
      requires (DIRECT + pc1 + pc2 + m) * blockSize < size
      ensures offset == Trebly(disk, data, blockSize, m)
      decreases 1, 0, 2
    {
      hide FileOk, IsDisk, BlockAt, EntryOn, Squared, IndexAt;
      FileShape(disk, data, blockSize, size);
      TreblyRead(disk, data, blockSize, size, m);
      offset := ReadBlockNumber(TreblyAt(data, blockSize, m));
      offset := ReadBlockNumber((offset + m % pc2 / pc1) % WORDS32);
      offset := ReadBlockNumber((offset + m % pc1) % WORDS32);
    }

    /** A block number is read from the disk and multiplied by the block size. */
    method ReadBlockNumber(at: nat) returns (offset: nat)
      requires IsFile() && at + 4 < WORDS32
      ensures offset == BlockAt(disk, blockSize, at)
      decreases 1, 0, 1
    {
      hide IsDisk, FileOk;
      offset := ReadEntry(at);
      offset := offset * blockSize % WORDS32;
    }

    lemma SinglyIs(number: nat)
      requires IsFile() && number * blockSize < size
      ensures 12 <= number < 12 + blockSize / 4 ==>
        NamedBy(disk, data[12], blockSize, number - 12, PlaceOf(disk, data, blockSize, number))
    {
      hide FileOk, IsDisk, PlaceOf, Doubly, Trebly, NamedBy, BlockAt, IndexAt;
      FileShape(disk, data, blockSize, size);
      PlaceRead(disk, data, blockSize, size, number);
      if 12 <= number < 12 + blockSize / 4 {
        BlockIsNamed(disk, data[12], blockSize, number - 12);
      }
    }

    /** Four bytes of the disk as a word. */
    method ReadEntry(offset: nat) returns (entry: nat)
      requires IsFile() && offset + 4 < WORDS32
      ensures offset + 4 <= |disk| && entry == EntryOn(disk, offset)
      decreases 1, 0, 0
    {
      hide FileOk, Overwrite, Slice, IsDisk, Word32;
      FileShape(disk, data, blockSize, size);
      DiskShape();
      var w := new Byte[4];
      ghost var was := w[..];
      var got := ide.ReadAll(offset, 4, w, 0);
      SliceIs(ide.Content(), offset, 4);
      SubSlice(disk, 0, ide.size, offset, 4);
      OverwriteAll(was, disk[offset..offset + 4]);
      entry := Word32(w[..]);
    }

    /** Node::read_block, when the cache holds another block. */
    method FillCache(number: nat)
      requires Valid() && ide != null && StartOf(number, blockSize) < size
      modifies Cache()
      ensures Valid() && (cache == old(cache) || fresh(cache)) && cacheNum == number
      decreases 1, 2
    {
      hide FileOk, FileContent, FileBlock, Overwrite, Slice, IsDisk;
      FileShape(disk, data, blockSize, size);
      DiskShape();
      var c: array<Byte>;
      if cache == null {
        c := new Byte[blockSize];
        cache := c;
      } else {
        c := cache;
      }
      cacheNum := number;
      var offset := FindBlock(number);
      ghost var was := c[..];
      var got := ide.ReadAll(offset, blockSize, c, 0);
      SliceIs(ide.Content(), offset, blockSize);
      SubSlice(disk, 0, ide.size, offset, blockSize);
      OverwriteAll(was, disk[offset..offset + blockSize]);
      FileBlockIs(disk, data, blockSize, number);
      NumberBelow(number);
    }

    lemma DiskShape()
      requires IsFile()
      ensures ide.size == WORDS32 - 1 && ide.Content() == disk[..WORDS32 - 1] && ide.ide == null
    {
    }

    lemma NumberBelow(number: nat)
      requires Sound() && StartOf(number, blockSize) < size
      ensures number < NO_BLOCK
    {
      PositiveBlock();
      hide Sound;
      if number >= NO_BLOCK {
        MulOrder(1, blockSize, number);
      }
    }

    /** Node::read_block */
    method ReadFileBlock(number: nat, buffer: array<Byte>, at: nat)
      requires Valid() && ide != null && StartOf(number, blockSize) < size && at + blockSize <= buffer.Length
      requires buffer != cache
      modifies Cache(), buffer
      ensures Valid() && (cache == old(cache) || fresh(cache))
      ensures buffer[..] == Overwrite(old(buffer[..]), at, BlockOf(number))
      decreases 1, 3
    {
      hide FileOk, FileContent, FileBlock, Overwrite;
      NumberBelow(number);
      if number != cacheNum {
        FillCache(number);
      }
      assert cache[0..blockSize] == cache[..];
      Copy(cache, 0, buffer, at, blockSize);
    }

    /** The virtual read_block. */
    method ReadBlock(number: nat, buffer: array<Byte>, at: nat)
      requires Valid() && StartOf(number, blockSize) < size && at + blockSize <= buffer.Length
      requires ide != null ==> buffer != cache
      modifies Cache(), buffer
      ensures Valid() && (cache == old(cache) || fresh(cache))
      ensures buffer[..] == Overwrite(old(buffer[..]), at, BlockOf(number))
      decreases Level(), 4
    {
      hide FileOk, FileContent, FileBlock, BlockOf;
      if ide == null {
        ReadSector(number, buffer, at);
      } else {
        ReadFileBlock(number, buffer, at);
      }
    }

    /** read: as much as one block gives. */
    method Read(offset: nat, desired: nat, buffer: array<Byte>, at: nat) returns (cnt: int)
      requires Valid() && (ide != null ==> buffer != cache) && offset < WORDS32 && desired < WORDS32
      requires offset <= size ==> at + Min(desired, size - offset) <= buffer.Length
      modifies Cache(), buffer
      ensures Valid() && (cache == old(cache) || fresh(cache))
      ensures offset > size ==> cnt == -1 && buffer[..] == old(buffer[..])
      ensures offset <= size ==>
        && 0 <= cnt <= Min(desired, size - offset) && (cnt == 0 <==> Min(desired, size - offset) == 0)
        && buffer[..] == Overwrite(old(buffer[..]), at, Slice(Content(), offset, cnt))
      decreases Level(), 5
    {
      hide FileOk, FileContent, FileBlock, BlockOf, Content, IsDisk, IsFile, Overwrite, Slice, CacheOk, StartOf, Sound;
      if offset > size {
        return -1;
      }
      OverwriteNothing(buffer[..], at);
      assert Slice(Content(), offset, 0) == [];
      if offset == size {
        return 0;
      }
      PositiveBlock();
      BlockBounds(offset, blockSize);
      var n := Min(desired, size - offset);
      var number := offset / blockSize;
      var offsetInBlock := offset % blockSize;
      var actual := Min(blockSize - offsetInBlock, n);
      PieceOfBlock(number, offset, offsetInBlock, actual);
      if actual == blockSize {
        ReadBlock(number, buffer, at);
        assert BlockOf(number)[offsetInBlock..offsetInBlock + actual] == BlockOf(number);
      } else {
        var temp := new Byte[blockSize];
        ghost var t := temp[..];
        ReadBlock(number, temp, 0);
        OverwriteAll(t, BlockOf(number));
        assert temp[offsetInBlock..offsetInBlock + actual] == temp[..][offsetInBlock..offsetInBlock + actual];
        Copy(temp, offsetInBlock, buffer, at, actual);
      }
      return actual;
    }

    /** read_all: reads until n bytes are there or the end is reached; -1 if it starts beyond the end. */
    method ReadAll(offset: nat, n: nat, buffer: array<Byte>, at: nat) returns (total: int)
      requires Valid() && (ide != null ==> buffer != cache) && offset < WORDS32 && n < WORDS32
      requires offset <= size ==> at + Min(n, size - offset) <= buffer.Length
      modifies Cache(), buffer
      ensures Valid() && (cache == old(cache) || fresh(cache))
      ensures offset > size ==> total == (if n > 0 then -1 else 0) && buffer[..] == old(buffer[..])
      ensures offset <= size ==>
        && total == Min(n, size - offset)
        && buffer[..] == Overwrite(old(buffer[..]), at, Slice(Content(), offset, n))
      decreases Level(), 6
    {
      hide FileOk, FileContent, FileBlock, BlockOf, Content, IsDisk, IsFile, Overwrite, Slice, CacheOk;
      PositiveBlock();
      total := 0;
      ghost var b0 := buffer[..];
      if offset <= size {
        OverwriteNothing(b0, at);
        assert Slice(Content(), offset, 0) == [];
      }
      while total < n
        invariant 0 <= total <= n && Valid() && (cache == old(cache) || fresh(cache))
        invariant ide != null ==> buffer != cache
        invariant offset > size ==> total == 0 && buffer[..] == b0
        invariant offset <= size ==>
          total <= size - offset && buffer[..] == Overwrite(b0, at, Slice(Content(), offset, total))
      {
        ghost var b := buffer[..];
        var cnt := Read(offset + total, n - total, buffer, at + total);
        if cnt < 0 {
          return cnt;
        }
        SliceTwice(Content(), offset, total, total + cnt);
        OverwriteTwice(b0, at, Slice(Content(), offset, total), Slice(Content(), offset + total, cnt));
        if cnt == 0 {
          SliceEnd(Content(), offset, n, total);
          return total;
        }
        total := total + cnt;
      }
    }

    lemma PositiveBlock()
      requires Sound()
      ensures blockSize > 0 && size < WORDS32
    {
      hide OnDisk;
    }

    /** Within one block the content is the block's. */
    lemma PieceOfBlock(number: nat, offset: nat, r: nat, n: nat)
      requires Sound() && StartOf(number, blockSize) < size && r + n <= blockSize
      requires offset == StartOf(number, blockSize) + r && offset + n <= size
      ensures Slice(Content(), offset, n) == BlockOf(number)[r..r + n]
    {
      hide FileOk, Slice;
      var start := number * blockSize;
      SliceIs(Content(), offset, n);
      if ide == null {
        SubSlice(disk, start, SECTOR, r, n);
        SubSlice(disk, 0, size, offset, n);
      } else {
        FileShape(disk, data, blockSize, size);
        FilePiece(disk, data, blockSize, size, number, r, n);
      }
    }
  }

  lemma SliceIs(c: seq<Byte>, o: nat, n: nat)
    requires o + n <= |c|
    ensures Slice(c, o, n) == c[o..o + n]
  {
  }

  lemma SubSlice(c: seq<Byte>, a: nat, len: nat, r: nat, n: nat)
    requires a + len <= |c| && r + n <= len
    ensures c[a..a + len][r..r + n] == c[a + r..a + r + n]
  {
    var x, y := c[a..a + len][r..r + n], c[a + r..a + r + n];
    assert |x| == |y| && forall j :: 0 <= j < |x| ==> x[j] == y[j];
  }

  lemma FilePiece(disk: seq<Byte>, data: seq<nat>, bs: nat, size: nat, number: nat, r: nat, n: nat)
    requires |data| == 15 && bs >= 4 && r + n <= bs && number * bs + r + n <= size
    ensures FileContent(disk, data, bs, size)[number * bs + r..number * bs + r + n]
      == FileBlock(disk, data, bs, number)[r..r + n]
  {
    hide PlaceOf;
    var offset := number * bs + r;
    var c, b := FileContent(disk, data, bs, size), FileBlock(disk, data, bs, number);
    var x, y := c[offset..offset + n], b[r..r + n];
    forall j | 0 <= j < n ensures x[j] == y[j] {
      DivUnique(number, r + j, bs);
      assert c[offset + j] == FileByte(disk, data, bs, offset + j);
      assert b[r + j] == ByteAfter(disk, PlaceOf(disk, data, bs, number), r + j);
    }
  }

  /** The bytes of block number of a file. */
  ghost function FileBlock(disk: seq<Byte>, data: seq<nat>, bs: nat, number: nat): (b: seq<Byte>)
    requires |data| == 15 && bs >= 4
    ensures |b| == bs
  {
    var at := PlaceOf(disk, data, bs, number);
    seq(bs, (j: nat) => ByteAfter(disk, at, j))
  }

  function ByteAfter(disk: seq<Byte>, at: nat, j: nat): Byte {
    DiskByte(disk, at + j)
  }

  lemma FileBlockIs(disk: seq<Byte>, data: seq<nat>, bs: nat, number: nat)
    requires |disk| == WORDS32 && |data| == 15 && bs >= 4 && Readable(disk, data, bs, number)
    ensures var at := PlaceOf(disk, data, bs, number);
            at + bs < WORDS32 && FileBlock(disk, data, bs, number) == disk[at..at + bs]
  {
  }

  lemma FileShape(disk: seq<Byte>, data: seq<nat>, bs: nat, size: nat)
    requires FileOk(disk, data, bs, size)
    ensures |disk| == WORDS32 && |data| == 15 && bs >= 8 && bs < WORDS32 && size < WORDS32
  {
  }

  // ---------- indirect blocks ----------

  /** A block that starts at a multiple of the block size leaves room for an entry that is not scaled. */
  lemma RoomInBlock(disk: seq<Byte>, bs: nat, at: nat, i: nat)
    requires bs >= 8 && bs % 4 == 0 && WORDS32 % bs == 0 && i < bs / 4
    ensures BlockAt(disk, bs, at) + i + 4 < WORDS32
  {
    hide EntryOn;
    WholeBlocks(EntryOn(disk, at), bs);
  }

  /** In 32 bits a block number still gives the start of a block. */
  lemma WholeBlocks(e: nat, bs: nat)
    requires 0 < bs <= WORDS32 && WORDS32 % bs == 0
    ensures e * bs % WORDS32 + bs <= WORDS32
  {
    var q := WORDS32 / bs;
    assert q * bs == WORDS32;
    var a, b := e / q, e % q;
    MulOrder(b + 1, q, bs);
    assert b * bs + bs == (b + 1) * bs <= WORDS32;
    assert e * bs == a * WORDS32 + b * bs by {
      assert e == a * q + b;
      Distribute(a * q, b, bs);
      Regroup(a, q, bs);
    }
    DivUnique(a, b * bs, WORDS32);
  }

  lemma Distribute(a: nat, b: nat, c: nat)
    ensures (a + b) * c == a * c + b * c
  {
  }

  lemma Regroup(a: nat, b: nat, c: nat)
    ensures a * b * c == a * (b * c)
  {
  }

  /** A block number in use is below what the i-node can name, and the indirect blocks on its way are on the disk. */
  lemma NumberInRange(disk: seq<Byte>, data: seq<nat>, bs: nat, size: nat, number: nat)
    requires FileOk(disk, data, bs, size) && number * bs < size
    ensures number < MostBlocks(bs) && PlaceOf(disk, data, bs, number) + bs < WORDS32
    ensures number >= 12 ==> data[12] * bs + bs < WORDS32
    ensures number >= 12 + bs / 4 ==> data[13] * bs + bs < WORDS32
    ensures number >= 12 + bs / 4 + Squared(bs / 4) ==> data[14] * bs + bs < WORDS32
  {
    hide PlaceOf, MostBlocks, Squared;
    assert InUse(bs, size, number) && Readable(disk, data, bs, number);
    NotBeyond(number, MostBlocks(bs), bs, size);
    NotBeyond(number, 12, bs, size);
    NotBeyond(number, 12 + bs / 4, bs, size);
    NotBeyond(number, 12 + bs / 4 + Squared(bs / 4), bs, size);
  }

  lemma NotBeyond(number: nat, limit: nat, bs: nat, size: nat)
    requires number * bs < size
    ensures size <= limit * bs ==> number < limit
    ensures number >= limit ==> size > limit * bs
  {
    if number >= limit {
      MulOrder(limit, number, bs);
    }
  }

  /** Every read on the way to a block stays within the disk, and pc1 * pc1 does not wrap where it is used. */
  lemma PlaceRead(disk: seq<Byte>, data: seq<nat>, bs: nat, size: nat, number: nat)
    requires FileOk(disk, data, bs, size) && number * bs < size
    ensures PlaceOf(disk, data, bs, number) + bs < WORDS32
    ensures number < 12 ==> PlaceOf(disk, data, bs, number) == data[number] * bs % WORDS32
    ensures 12 <= number < 12 + bs / 4 ==>
      var at := IndexAt(data[12], bs, number - 12);
      at + 4 < WORDS32 && PlaceOf(disk, data, bs, number) == BlockAt(disk, bs, at)
    ensures number >= 12 + bs / 4 ==>
      var m, p := number - 12 - bs / 4, bs / 4;
      && p * p % WORDS32 == Squared(p)
      && PlaceOf(disk, data, bs, number) ==
        if m < Squared(p) then Doubly(disk, data, bs, m) else Trebly(disk, data, bs, m - Squared(p))
  {
    hide FileOk, BlockAt;
    FileShape(disk, data, bs, size);
    NumberInRange(disk, data, bs, size, number);
    if number >= 12 + bs / 4 {
      SquareSmall(bs, size, number);
    }
  }

  lemma DoublyRead(disk: seq<Byte>, data: seq<nat>, bs: nat, size: nat, m: nat)
    requires FileOk(disk, data, bs, size) && bs >= 4 && |data| == 15
    requires m < Squared(bs / 4) && (12 + bs / 4 + m) * bs < size
    ensures DoublyAt(data, bs, m) + 4 < WORDS32 && m % (bs / 4) < bs / 4
    ensures BlockAt(disk, bs, DoublyAt(data, bs, m)) + m % (bs / 4) + 4 < WORDS32
  {
    hide FileOk, BlockAt;
    FileShape(disk, data, bs, size);
    NumberInRange(disk, data, bs, size, 12 + bs / 4 + m);
    BlockSizes(disk, data, bs, size);
    InRow(m, bs / 4, bs / 4);
    RoomInBlock(disk, bs, DoublyAt(data, bs, m), m % (bs / 4));
  }

  lemma TreblyRead(disk: seq<Byte>, data: seq<nat>, bs: nat, size: nat, m: nat)
    requires FileOk(disk, data, bs, size) && bs >= 4 && |data| == 15
    requires (12 + bs / 4 + Squared(bs / 4) + m) * bs < size
    ensures TreblyAt(data, bs, m) + 4 < WORDS32
    ensures TreblySecond(disk, data, bs, m) + 4 < WORDS32
    ensures BlockAt(disk, bs, TreblySecond(disk, data, bs, m)) + m % (bs / 4) + 4 < WORDS32
  {
    hide FileOk, MostBlocks, TreblyAt, TreblySecond, BlockAt;
    FileShape(disk, data, bs, size);
    NumberInRange(disk, data, bs, size, 12 + bs / 4 + Squared(bs / 4) + m);
    BlockSizes(disk, data, bs, size);
    MostIs(bs, m);
    TreblyFits(disk, data, bs, m);
  }

  lemma MostIs(bs: nat, m: nat)
    requires 12 + bs / 4 + Squared(bs / 4) + m < MostBlocks(bs)
    ensures m < bs / 4 * Squared(bs / 4)
  {
    hide Squared;
  }

  lemma TreblyFits(disk: seq<Byte>, data: seq<nat>, bs: nat, m: nat)
    requires bs >= 8 && |data| == 15 && bs % 4 == 0 && bs < WORDS32 && WORDS32 % bs == 0
    requires m < bs / 4 * Squared(bs / 4) && data[14] * bs + bs < WORDS32
    ensures TreblyAt(data, bs, m) + 4 < WORDS32
    ensures TreblySecond(disk, data, bs, m) + 4 < WORDS32
    ensures BlockAt(disk, bs, TreblySecond(disk, data, bs, m)) + m % (bs / 4) + 4 < WORDS32
  {
    hide BlockAt, Squared, IndexAt;
    TreblyRows(m, bs / 4);
    IndexRoom(data[14], bs, m / Squared(bs / 4));
    RoomInBlock(disk, bs, TreblyAt(data, bs, m), m % Squared(bs / 4) / (bs / 4));
    RoomInBlock(disk, bs, TreblySecond(disk, data, bs, m), m % (bs / 4));
  }

  /** Every entry of a block on the disk is on the disk. */
  lemma IndexRoom(b: nat, bs: nat, k: nat)
    requires b * bs + bs < WORDS32 && k < bs / 4
    ensures IndexAt(b, bs, k) + 4 < WORDS32
  {
  }

  lemma TreblyRows(m: nat, p: nat)
    requires m < p * Squared(p)
    ensures p > 0 && m / Squared(p) < p && m % Squared(p) / p < p && m % p < p
  {
    var q := Squared(p);
    InRow(m, p, q);
    assert m % q < p * p;
    hide Squared;
    InRow(m % q, p, p);
  }

  lemma BlockSizes(disk: seq<Byte>, data: seq<nat>, bs: nat, size: nat)
    requires FileOk(disk, data, bs, size)
    ensures bs % 4 == 0 && WORDS32 % bs == 0
  {
  }

  /** m below n blocks of k lies in one of them. */
  lemma InRow(m: nat, n: nat, k: nat)
    requires m < n * k
    ensures k > 0 && m / k < n && m % k < k
  {
    if m / k >= n {
      MulOrder(n, m / k, k);
    }
  }

  lemma SquareSmall(bs: nat, size: nat, number: nat)
    requires number * bs < size < WORDS32 && number >= 12 + bs / 4
    ensures bs / 4 * (bs / 4) < WORDS32
  {
    var p := bs / 4;
    MulOrder(p, number, bs);
    assert p * p <= p * bs by {
      assert p * bs == bs * p;
      MulOrder(p, bs, p);
    }
  }

  lemma SmallWord(x: nat)
    requires x < WORDS32
    ensures x % WORDS32 == x
  {
  }

  // ---------- file descriptors ----------

  class FileDescriptor {
    const node: BlockIO
    var offset: nat

    ghost predicate Valid()
      reads this, node, node.cache
    {
      node.ide != null && node.Valid() && offset < WORDS32
    }

    constructor (node: BlockIO)
      requires node.ide != null && node.Valid()
      ensures Valid() && this.node == node && offset == 0
    {
      this.node := node;
      offset := 0;
    }

    /** read: the next bytes of the file, at most len of them. A negative length is taken as an unsigned
        one, and a count of 2^31 or more is returned as a negative number. */
    method Read(buffer: array<Byte>, len: int) returns (cnt: int)
      requires Valid() && -0x8000_0000 <= len < 0x8000_0000 && buffer != node.cache
      requires offset <= node.size ==> Min(len % WORDS32, node.size - offset) <= buffer.Length
      modifies this`offset, node.Cache(), buffer
      ensures Valid() && (node.cache == old(node.cache) || fresh(node.cache))
      ensures var got := Slice(node.Content(), old(offset), len % WORDS32);
              && offset == old(offset) + |got| && |got| <= buffer.Length && buffer[..|got|] == got
              && cnt == if old(offset) > node.size then -1 else Signed(|got|)
    {
      if offset > node.size {
        return -1;
      }
      cnt := node.ReadAll(offset, len % WORDS32, buffer, 0);
      offset := offset + cnt;
      cnt := Signed(cnt);
    }

    /** seek: a negative offset is stored as an unsigned one. */
    method Seek(to: int) returns (r: int)
      requires Valid() && -0x8000_0000 <= to < 0x8000_0000
      modifies this`offset
      ensures Valid() && offset == to % WORDS32 && r == to
    {
      offset := to % WORDS32;
      return Signed(offset);
    }

    /** One read, and the bytes it put into the buffer. */
    method ReadPiece(buffer: array<Byte>, len: nat) returns (piece: seq<Byte>)
      requires Valid() && buffer != node.cache && len < 0x8000_0000 && len <= buffer.Length
      modifies this`offset, node.Cache(), buffer
      ensures Valid() && (node.cache == old(node.cache) || fresh(node.cache))
      ensures piece == Slice(node.Content(), old(offset), len) && offset == old(offset) + |piece|
    {
      hide Slice, FileOk, FileContent, BlockIO.IsDisk, BlockIO.CacheOk, BlockIO.IsFile;
      SliceShort(node.Content(), offset, len);
      var cnt := Read(buffer, len);
      piece := if cnt > 0 then buffer[..cnt] else [];
    }

    /** Reads of the given lengths one after the other, into one buffer. */
    method ReadInTurn(buffer: array<Byte>, lens: seq<nat>) returns (got: seq<Byte>)
      requires Valid() && buffer != node.cache
      requires forall i :: 0 <= i < |lens| ==> lens[i] < 0x8000_0000 && lens[i] <= buffer.Length
      modifies this`offset, node.Cache(), buffer
      ensures Valid() && (node.cache == old(node.cache) || fresh(node.cache))
      ensures got == Slice(node.Content(), old(offset), Sum(lens)) && offset == old(offset) + |got|
    {
      hide Slice, Sum, ReadsFrom, FileOk, FileContent, BlockIO.IsDisk, BlockIO.CacheOk, BlockIO.IsFile;
      ghost var c, o := node.Content(), offset;
      got := [];
      NoReads(c, o, lens);
      var i := 0;
      while i < |lens|
        invariant i <= |lens| && Valid() && (node.cache == old(node.cache) || fresh(node.cache))
        invariant buffer != node.cache && node.Content() == c
        invariant offset == o + |got| && got + ReadsFrom(c, offset, lens[i..]) == ReadsFrom(c, o, lens)
      {
        OneRead(c, o, lens, i, got);
        var piece := ReadPiece(buffer, lens[i]);
        got := got + piece;
        i := i + 1;
      }
      NoReads(c, offset, lens);
      ReadsConcatenate(c, o, lens);
    }
  }

  /** A number of 32 bits read as a signed one. */
  function Signed(n: nat): int
    requires n < WORDS32
  {
    if n < 0x8000_0000 then n else n - WORDS32
  }

  lemma SliceShort(c: seq<Byte>, o: nat, n: nat)
    ensures |Slice(c, o, n)| <= n && (o > |c| ==> Slice(c, o, n) == [])
  {
  }

  lemma NoReads(c: seq<Byte>, o: nat, lens: seq<nat>)
    ensures lens[0..] == lens && ReadsFrom(c, o, lens[|lens|..]) == []
  {
  }

  lemma OneRead(c: seq<Byte>, o: nat, lens: seq<nat>, i: nat, got: seq<Byte>)
    requires i < |lens| && got + ReadsFrom(c, o + |got|, lens[i..]) == ReadsFrom(c, o, lens)
    ensures var more := got + Slice(c, o + |got|, lens[i]);
            more + ReadsFrom(c, o + |more|, lens[i + 1..]) == ReadsFrom(c, o, lens)
  {
    hide Slice;
    assert lens[i..][0] == lens[i] && lens[i..][1..] == lens[i + 1..];
  }

  /** The results, joined, of reads of the given lengths one after the other from position o. */
  ghost function ReadsFrom(c: seq<Byte>, o: nat, lens: seq<nat>): seq<Byte>
    decreases lens
  {
    if lens == [] then []
    else
      var got := Slice(c, o, lens[0]);
      got + ReadsFrom(c, o + |got|, lens[1..])
  }

  ghost function Sum(lens: seq<nat>): nat {
    if lens == [] then 0 else lens[0] + Sum(lens[1..])
  }

  /** Successive reads give one consecutive piece of the file. */
  lemma {:induction false} ReadsConcatenate(c: seq<Byte>, o: nat, lens: seq<nat>)
    ensures ReadsFrom(c, o, lens) == Slice(c, o, Sum(lens))
    decreases lens
  {
    hide Slice;
    if lens == [] {
      SliceShort(c, o, 0);
    } else if o > |c| {
      ReadsConcatenate(c, o, lens[1..]);
      SliceShort(c, o, lens[0]);
      SliceShort(c, o, Sum(lens));
      SliceShort(c, o, Sum(lens[1..]));
    } else {
      var n, rest := Min(lens[0], |c| - o), Sum(lens[1..]);
      ReadsConcatenate(c, o + n, lens[1..]);
      SliceEnd(c, o, lens[0], n);
      if lens[0] <= |c| - o {
        SliceTwice(c, o, n, n + rest);
      } else {
        assert Slice(c, |c|, rest) == [];
        SliceEnd(c, o, lens[0] + rest, n);
      }
    }
  }
}
