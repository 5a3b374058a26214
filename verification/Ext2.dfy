/**
 * Path resolution (Ext2::open and Ext2::find, kernel/ext2.cc): directories are read block by block from
 * the disk and their entries are parsed in place.
 */
module Ext2 {
  import opened Frames
  import opened BlockIo

  const ROOT := 2
  const MAX_DEPTH := 10
  const SLASH: Byte := 47
  const INLINE := 60

  /** The characters of a path or a name, without the NUL. */
  type Text = seq<Byte>

  datatype Entry = Entry(inode: nat, name: Text)

  datatype Kind = Directory | Regular | Symlink | Other

  datatype Inode = Inode(kind: Kind, size: nat, data: seq<nat>)

  datatype Image = Image(nodes: map<nat, Inode>, blockSize: nat, disk: seq<Byte>)

  // ---------- directories on the disk ----------

  function Word16(b: seq<Byte>): nat
    requires |b| == 2
  {
    var b0: int, b1: int := b[0], b[1];
    b0 + 0x100 * b1
  }

  function InodeNumber(block: seq<Byte>, at: nat): nat
    requires at + 8 <= |block|
  {
    Word32(block[at..at + 4])
  }

  function RecLen(block: seq<Byte>, at: nat): nat
    requires at + 8 <= |block|
  {
    Word16(block[at + 4..at + 6])
  }

  function NameLen(block: seq<Byte>, at: nat): nat
    requires at + 8 <= |block|
  {
    Word16(block[at + 6..at + 8])
  }

  /** The record at at holds its name and lies in the block. */
  predicate Fits(block: seq<Byte>, at: nat) {
    && at + 8 <= |block|
    && 8 + NameLen(block, at) <= RecLen(block, at) && at + RecLen(block, at) <= |block|
  }

  function EntryAt(block: seq<Byte>, at: nat): Entry
    requires Fits(block, at)
  {
    Entry(InodeNumber(block, at), block[at + 8..at + 8 + NameLen(block, at)])
  }

  /** The entries from a position of a block on. */
  function Entries(block: seq<Byte>, at: nat): seq<Entry>
    decreases |block| - at
  {
    if Fits(block, at) then [EntryAt(block, at)] + Entries(block, at + RecLen(block, at)) else []
  }

  ghost predicate EntryOk(img: Image, e: Entry) {
    e.name != [] && SLASH !in e.name && 0 !in e.name && e.inode in img.nodes
  }

  /** Records fill the block from a position on; each is in use and names an i-node that exists. */
  ghost predicate BlockOk(img: Image, block: seq<Byte>, at: nat)
    decreases |block| - at
  {
    || at == |block|
    || (Fits(block, at) && EntryOk(img, EntryAt(block, at)) && BlockOk(img, block, at + RecLen(block, at)))
  }

  ghost function DirBlock(img: Image, n: Inode, b: nat): seq<Byte>
    requires |n.data| == 15 && img.blockSize >= 4
  {
    FileBlock(img.disk, n.data, img.blockSize, b)
  }

  /** The entries of the first b blocks. */
  ghost function Listing(img: Image, n: Inode, b: nat): seq<Entry>
    requires |n.data| == 15 && img.blockSize >= 4
  {
    if b == 0 then [] else Listing(img, n, b - 1) + Entries(DirBlock(img, n, b - 1), 0)
  }

  ghost predicate DirectoryOk(img: Image, n: Inode) {
    && FileOk(img.disk, n.data, img.blockSize, n.size) && n.size % img.blockSize == 0
    && forall b :: 0 <= b < n.size / img.blockSize ==> BlockOk(img, DirBlock(img, n, b), 0)
  }

  /** Byte j of the block numbers, which hold a short link. */
  function DataByte(data: seq<nat>, j: nat): Byte
    requires |data| == 15 && j < INLINE
  {
    var w := data[j / 4];
    var shifted :=
      if j % 4 == 0 then w
      else if j % 4 == 1 then w / 0x100
      else if j % 4 == 2 then w / 0x1_0000
      else w / 0x100_0000;
    shifted % 0x100
  }

  /** The path a symbolic link holds. */
  ghost function Target(img: Image, n: Inode): (t: Text)
    requires |n.data| == 15 && img.blockSize >= 4
    ensures |t| == n.size
  {
    if n.size < INLINE then seq(n.size, j requires 0 <= j < n.size => DataByte(n.data, j))
    else FileContent(img.disk, n.data, img.blockSize, n.size)
  }

  ghost predicate LinkOk(img: Image, n: Inode)
    requires img.blockSize >= 4
  {
    && |n.data| == 15 && n.size + 1 < WORDS32
    && (n.size >= INLINE ==> FileOk(img.disk, n.data, img.blockSize, n.size))
    && 0 !in Target(img, n)
  }

  ghost predicate InodeOk(img: Image, n: Inode)
    requires img.blockSize >= 4
  {
    match n.kind
    case Directory => DirectoryOk(img, n)
    case Symlink => LinkOk(img, n)
    case _ => true
  }

  ghost predicate ImageOk(img: Image) {
    && img.blockSize >= 4 && ROOT in img.nodes && img.nodes[ROOT].kind == Directory
    && forall i :: i in img.nodes ==> InodeOk(img, img.nodes[i])
  }

  lemma NodeIsOk(img: Image, i: nat)
    requires ImageOk(img) && i in img.nodes
    ensures InodeOk(img, img.nodes[i])
  {
  }

  /** All entries of a directory. */
  ghost function DirEntries(img: Image, i: nat): seq<Entry>
    requires ImageOk(img) && i in img.nodes && img.nodes[i].kind == Directory
  {
    NodeIsOk(img, i);
    Listing(img, img.nodes[i], img.nodes[i].size / img.blockSize)
  }

  // ---------- the recursive resolver ----------

  /** The index of the first slash, or the length. */
  function Slash(path: Text): (k: nat)
    ensures k <= |path| && SLASH !in path[..k] && (k < |path| ==> path[k] == SLASH)
  {
    if path == [] || path[0] == SLASH then 0
    else
      var k := Slash(path[1..]);
      assert path[..k + 1] == [path[0]] + path[1..][..k];
      k + 1
  }

  function Components(path: Text): (names: seq<Text>)
    ensures |names| > 0
  {
    var k := Slash(path);
    if k == |path| then [path] else [path[..k]] + Components(path[k + 1..])
  }

  /** The i-node of the first entry with a name. */
  function Lookup(es: seq<Entry>, name: Text): Option<nat> {
    if es == [] then None
    else if es[0].name == name then Some(es[0].inode)
    else Lookup(es[1..], name)
  }

  /** What following the directories of a path comes to; dir is the directory of the last component. */
  datatype Walked = Found(file: nat, dir: nat) | NotDirectory | NoEntry

  ghost function Walk(img: Image, cd: nat, names: seq<Text>): Walked
    requires ImageOk(img) && |names| > 0
    decreases |names|
  {
    if cd !in img.nodes || img.nodes[cd].kind != Directory then NotDirectory
    else
      match Lookup(DirEntries(img, cd), names[0])
      case None => NoEntry
      case Some(i) => if |names| == 1 then Found(i, cd) else Walk(img, i, names[1..])
  }

  /** Where a path starts: one leading slash means the root. */
  function StartDir(cd: nat, path: Text): nat {
    if path != [] && path[0] == SLASH then ROOT else cd
  }

  function StartPath(path: Text): Text {
    if path != [] && path[0] == SLASH then path[1..] else path
  }

  ghost function WalkPath(img: Image, cd: nat, path: Text): Walked
    requires ImageOk(img)
  {
    Walk(img, StartDir(cd, path), Components(StartPath(path)))
  }

  ghost function LinkTarget(img: Image, i: nat): Text
    requires ImageOk(img) && i in img.nodes && img.nodes[i].kind == Symlink
  {
    NodeIsOk(img, i);
    Target(img, img.nodes[i])
  }

  /** Follows symbolic links in the last component, relative to the directory they were found in, as
      long as depth lasts; directories are not opened. */
  ghost function Resolve(img: Image, cd: nat, path: Text, depth: nat): Option<nat>
    requires ImageOk(img)
    decreases depth
  {
    if depth == 0 then None
    else
      match WalkPath(img, cd, path)
      case Found(f, d) =>
        if f !in img.nodes then None
        else
          (match img.nodes[f].kind
           case Symlink => Resolve(img, d, LinkTarget(img, f), depth - 1)
           case Directory => None
           case _ => Some(f))
      case _ => None
  }

  // ---------- matching in place ----------

  /** How the rest of a path goes on after an entry's name. */
  datatype Match = No | Final | Into(rest: Text)

  function Matches(name: Text, path: Text): Match {
    if |name| <= |path| && path[..|name|] == name then
      if |name| == |path| then Final
      else if path[|name|] == SLASH then Into(path[|name| + 1..])
      else No
    else No
  }

  datatype Hit = Miss | Hit(inode: nat, m: Match)

  /** The first of the entries that matches the start of the path. */
  function FirstHit(es: seq<Entry>, path: Text): Hit {
    if es == [] then Miss
    else
      var m := Matches(es[0].name, path);
      if m != No then Hit(es[0].inode, m) else FirstHit(es[1..], path)
  }

  function Rest(path: Text): Match {
    var k := Slash(path);
    if k == |path| then Final else Into(path[k + 1..])
  }

  /** A name without slashes matches exactly when it is the first component. */
  lemma MatchesFirst(name: Text, path: Text)
    requires SLASH !in name
    ensures Matches(name, path) == if name == Components(path)[0] then Rest(path) else No
  {
    var k := Slash(path);
    assert Components(path)[0] == path[..k];
    assert k < |name| <= |path| ==> path[..|name|][k] == path[k];
    assert |name| < k ==> path[..k][|name|] == path[|name|];
  }

  lemma {:induction false} HitIsLookup(img: Image, es: seq<Entry>, path: Text)
    requires forall e :: e in es ==> EntryOk(img, e)
    ensures match Lookup(es, Components(path)[0])
            case None => FirstHit(es, path) == Miss
            case Some(i) => FirstHit(es, path) == Hit(i, Rest(path)) && i in img.nodes
  {
    if es != [] {
      assert EntryOk(img, es[0]);
      MatchesFirst(es[0].name, path);
      HitIsLookup(img, es[1..], path);
    }
  }

  // ---------- searching one directory ----------

  lemma {:induction false} FirstHitJoined(a: seq<Entry>, b: seq<Entry>, path: Text)
    ensures FirstHit(a + b, path) == if FirstHit(a, path) == Miss then FirstHit(b, path) else FirstHit(a, path)
  {
    if a == [] {
      assert a + b == b;
    } else {
      assert (a + b)[0] == a[0] && (a + b)[1..] == a[1..] + b;
      FirstHitJoined(a[1..], b, path);
    }
  }

  /** The character loop over one name. */
  method CompareName(name: Text, path: Text) returns (m: Match)
    ensures m == Matches(name, path)
  {
    var i := 0;
    while i < |name|
      invariant i <= |name| && i <= |path| && path[..i] == name[..i]
    {
      if i == |path| || name[i] != path[i] {
        assert |name| <= |path| ==> path[..|name|][i] == path[i];
        return No;
      }
      i := i + 1;
    }
    assert name[..i] == name && path[..|name|] == name;
    if i == |path| {
      return Final;
    }
    if path[i] == SLASH {
      return Into(path[i + 1..]);
    }
    return No;
  }

  /** The loop over the records of one block, counted down by their lengths. */
  method SearchBlock(ghost img: Image, buffer: array<Byte>, path: Text) returns (h: Hit)
    requires BlockOk(img, buffer[..], 0)
    ensures h == FirstHit(Entries(buffer[..], 0), path)
  {
    hide InodeNumber, RecLen, NameLen, Matches, EntryOk;
    ghost var b := buffer[..];
    var togo, entry := buffer.Length, 0;
    while togo > 0
      invariant entry + togo == |b| && BlockOk(img, b, entry)
      invariant FirstHit(Entries(b, 0), path) == FirstHit(Entries(b, entry), path)
      decreases togo
    {
      EntriesFrom(b, entry);
      var len := NameLen(buffer[..], entry);
      var m := CompareName(buffer[entry + 8..entry + 8 + len], path);
      assert EntryAt(b, entry).name == buffer[entry + 8..entry + 8 + len];
      if m != No {
        return Hit(InodeNumber(buffer[..], entry), m);
      }
      var rec := RecLen(buffer[..], entry);
      togo, entry := togo - rec, entry + rec;
    }
    return Miss;
  }

  lemma EntriesFrom(block: seq<Byte>, at: nat)
    requires Fits(block, at)
    ensures Entries(block, at) != [] && Entries(block, at)[0] == EntryAt(block, at)
    ensures Entries(block, at)[1..] == Entries(block, at + RecLen(block, at))
    ensures RecLen(block, at) > 0
  {
  }

  /** getInode: a node for reading, with an empty cache. */
  method GetNode(img: Image, ide: BlockIO, i: nat) returns (node: BlockIO)
    requires ide.IsDisk() && ide.disk == img.disk && i in img.nodes
    requires FileOk(img.disk, img.nodes[i].data, img.blockSize, img.nodes[i].size)
    ensures fresh(node) && node.Valid() && node.IsFile() && node.cache == null
    ensures node.disk == img.disk && node.size == img.nodes[i].size && node.data == img.nodes[i].data
    ensures node.blockSize == img.blockSize
  {
    node := new BlockIO.File(ide, img.blockSize, img.nodes[i].size, img.nodes[i].data);
  }

  /** One directory block is read and searched. */
  method SearchBlockOf(ghost img: Image, node: BlockIO, ghost n: Inode, b: nat, buffer: array<Byte>, path: Text)
    returns (h: Hit)
    requires node.Valid() && node.IsFile() && node.disk == img.disk && node.data == n.data && node.size == n.size
    requires node.blockSize == img.blockSize == buffer.Length && buffer != node.cache
    requires StartOf(b, img.blockSize) < n.size && BlockOk(img, DirBlock(img, n, b), 0)
    modifies node.Cache(), buffer
    ensures node.Valid() && (node.cache == old(node.cache) || fresh(node.cache))
    ensures h == FirstHit(Entries(DirBlock(img, n, b), 0), path)
  {
    hide FileBlock, Overwrite, BlockOk, FirstHit, Entries, StartOf;
    ghost var was := buffer[..];
    node.ReadBlock(b, buffer, 0);
    OverwriteAll(was, DirBlock(img, n, b));
    h := SearchBlock(img, buffer, path);
  }

  lemma {:induction false} ListingHit(img: Image, n: Inode, b: nat, c: nat, path: Text)
    requires |n.data| == 15 && img.blockSize >= 4 && b <= c
    ensures FirstHit(Listing(img, n, b), path) != Miss ==>
        FirstHit(Listing(img, n, c), path) == FirstHit(Listing(img, n, b), path)
    decreases c
  {
    hide FirstHit, Entries, DirBlock;
    if b < c {
      ListingHit(img, n, b, c - 1, path);
      FirstHitJoined(Listing(img, n, c - 1), Entries(DirBlock(img, n, c - 1), 0), path);
    }
  }

  lemma NextBlock(img: Image, n: Inode, b: nat, path: Text)
    requires |n.data| == 15 && img.blockSize >= 4 && FirstHit(Listing(img, n, b), path) == Miss
    ensures FirstHit(Listing(img, n, b + 1), path) == FirstHit(Entries(DirBlock(img, n, b), 0), path)
  {
    FirstHitJoined(Listing(img, n, b), Entries(DirBlock(img, n, b), 0), path);
  }

  /** The blocks of a directory are the whole blocks of its size. */
  lemma BlocksOf(img: Image, n: Inode, b: nat)
    requires DirectoryOk(img, n)
    ensures |n.data| == 15 && img.blockSize >= 4 && n.size == StartOf(n.size / img.blockSize, img.blockSize)
    ensures b < n.size / img.blockSize ==>
        StartOf(b, img.blockSize) < n.size && BlockOk(img, DirBlock(img, n, b), 0)
  {
    hide BlockOk, FileBlock, FileOk;
    FileShape(img.disk, n.data, img.blockSize, n.size);
    BlockBounds(n.size, img.blockSize);
    if b < n.size / img.blockSize {
      MulOrder(b + 1, n.size / img.blockSize, img.blockSize);
    }
  }

  /** open's loop over the blocks of a directory. */
  method SearchDirectory(img: Image, ide: BlockIO, cd: nat, path: Text, buffer: array<Byte>) returns (h: Hit)
    requires ImageOk(img) && ide.IsDisk() && ide.disk == img.disk && buffer.Length == img.blockSize
    requires cd in img.nodes && img.nodes[cd].kind == Directory
    modifies buffer
    ensures h == FirstHit(DirEntries(img, cd), path)
  {
    hide ImageOk, DirectoryOk, DirBlock, BlockOk, Listing, Entries, FirstHit, FileOk;
    NodeIsOk(img, cd);
    var n := img.nodes[cd];
    BlocksOf(img, n, 0);
    DirectoryFile(img, n);
    var node := GetNode(img, ide, cd);
    var b := 0;
    NothingListed(img, n, path);
    while b < n.size / img.blockSize
      invariant b <= n.size / img.blockSize && FirstHit(Listing(img, n, b), path) == Miss
      invariant node.Valid() && (node.cache == null || fresh(node.cache))
    {
      BlocksOf(img, n, b);
      h := SearchBlockOf(img, node, n, b, buffer, path);
      NextBlock(img, n, b, path);
      if h != Miss {
        ListingHit(img, n, b + 1, n.size / img.blockSize, path);
        return;
      }
      b := b + 1;
    }
    return Miss;
  }

  lemma DirectoryFile(img: Image, n: Inode)
    requires DirectoryOk(img, n)
    ensures FileOk(img.disk, n.data, img.blockSize, n.size)
  {
  }

  lemma NothingListed(img: Image, n: Inode, path: Text)
    requires |n.data| == 15 && img.blockSize >= 4
    ensures FirstHit(Listing(img, n, 0), path) == Miss
  {
  }

  lemma {:induction false} EntriesOk(img: Image, block: seq<Byte>, at: nat)
    requires BlockOk(img, block, at)
    ensures forall e :: e in Entries(block, at) ==> EntryOk(img, e)
    decreases |block| - at
  {
    hide InodeNumber, RecLen, NameLen, EntryOk;
    if at < |block| {
      EntriesOk(img, block, at + RecLen(block, at));
    }
  }

  lemma {:induction false} ListingOk(img: Image, n: Inode, b: nat)
    requires DirectoryOk(img, n) && b <= n.size / img.blockSize
    ensures |n.data| == 15 && forall e :: e in Listing(img, n, b) ==> EntryOk(img, e)
    decreases b
  {
    hide EntryOk, DirectoryOk, BlockOk;
    BlocksOf(img, n, 0);
    if b > 0 {
      BlocksOf(img, n, b - 1);
      ListingOk(img, n, b - 1);
      EntriesOk(img, DirBlock(img, n, b - 1), 0);
    }
  }

  lemma DirectoryHit(img: Image, cd: nat, path: Text)
    requires ImageOk(img) && cd in img.nodes && img.nodes[cd].kind == Directory
    ensures match Lookup(DirEntries(img, cd), Components(path)[0])
            case None => FirstHit(DirEntries(img, cd), path) == Miss
            case Some(i) => FirstHit(DirEntries(img, cd), path) == Hit(i, Rest(path)) && i in img.nodes
  {
    hide Listing, EntryOk, DirectoryOk;
    NodeIsOk(img, cd);
    ListingOk(img, img.nodes[cd], img.nodes[cd].size / img.blockSize);
    HitIsLookup(img, DirEntries(img, cd), path);
  }

  // ---------- open ----------

  /** From next_link: the components of one path are followed. */
  method FollowPath(img: Image, ide: BlockIO, start: nat, path0: Text, buffer: array<Byte>) returns (w: Walked)
    requires ImageOk(img) && ide.IsDisk() && ide.disk == img.disk && buffer.Length == img.blockSize
    requires start in img.nodes
    modifies buffer
    ensures w == Walk(img, start, Components(path0))
    ensures w.Found? ==> w.file in img.nodes && w.dir in img.nodes && img.nodes[w.dir].kind == Directory
  {
    hide ImageOk, DirEntries, FirstHit, Lookup, Matches;
    var cd, path := start, path0;
    while true
      invariant cd in img.nodes && Walk(img, cd, Components(path)) == Walk(img, start, Components(path0))
      decreases |path|
    {
      if img.nodes[cd].kind != Directory {
        return NotDirectory;
      }
      var h := SearchDirectory(img, ide, cd, path, buffer);
      DirectoryHit(img, cd, path);
      match h
      case Miss => return NoEntry;
      case Hit(i, m) =>
        if m == Final {
          return Found(i, cd);
        }
        assert Components(path)[1..] == Components(m.rest);
        cd := i;
        path := m.rest;
    }
  }

  /** get_symbol: short links are kept in the i-node itself, longer ones in a file. */
  method ReadLink(img: Image, ide: BlockIO, i: nat) returns (target: Text)
    requires ImageOk(img) && ide.IsDisk() && ide.disk == img.disk && i in img.nodes && img.nodes[i].kind == Symlink
    ensures target == LinkTarget(img, i)
  {
    hide FileOk, FileContent, DataByte, Overwrite, Slice;
    NodeIsOk(img, i);
    var n := img.nodes[i];
    var base := new Byte[n.size + 1];
    base[n.size] := 0;
    if n.size < INLINE {
      var j := 0;
      while j < n.size
        invariant j <= n.size && forall k :: 0 <= k < j ==> base[k] == DataByte(n.data, k)
      {
        base[j] := DataByte(n.data, j);
        j := j + 1;
      }
    } else {
      ghost var was := base[..];
      var node := GetNode(img, ide, i);
      var got := node.ReadAll(0, n.size, base, 0);
      SliceIs(node.Content(), 0, n.size);
      OverwriteStart(was, node.Content());
    }
    target := base[..n.size];
  }

  lemma OverwriteStart(b: seq<Byte>, c: seq<Byte>)
    requires |c| <= |b|
    ensures Overwrite(b, 0, c[0..|c|])[..|c|] == c
  {
  }

  /** open: the loop from follow_path on, once per symbolic link; it ends on every image. */
  method Open(img: Image, ide: BlockIO, dir: nat, name: Text) returns (r: Option<nat>)
    requires ImageOk(img) && ide.IsDisk() && ide.disk == img.disk
    requires dir in img.nodes && img.nodes[dir].kind == Directory
    ensures r == Resolve(img, dir, name, 10)
    ensures r.Some? ==>
        r.value in img.nodes && img.nodes[r.value].kind != Directory && img.nodes[r.value].kind != Symlink
  {
    hide Components, Walk, LinkTarget;
    var buffer := new Byte[img.blockSize];
    var cd, base := dir, name;
    var depth: nat := MAX_DEPTH;
    while depth > 0
      invariant cd in img.nodes
      invariant Resolve(img, cd, base, depth) == Resolve(img, dir, name, MAX_DEPTH)
    {
      var path := base;
      if path != [] && path[0] == SLASH {
        cd := ROOT;
        path := path[1..];
      }
      var w := FollowPath(img, ide, cd, path, buffer);
      if !w.Found? {
        return None;
      }
      match img.nodes[w.file].kind {
        case Symlink =>
          base := ReadLink(img, ide, w.file);
          cd := w.dir;
          depth := depth - 1;
        case Directory =>
          return None;
        case _ =>
          return Some(w.file);
      }
    }
    return None;
  }

  // ---------- find ----------

  /** What find makes of a walk: a component that is no directory ends the run, and links are not followed. */
  function FindResult(w: Walked): Outcome<Option<nat>> {
    match w
    case Found(f, _) => Running(Some(f))
    case NotDirectory => Panicked
    case NoEntry => Running(None)
  }

  /** find's loop over the blocks, counting the size down. */
  method SearchCounted(img: Image, ide: BlockIO, cd: nat, path: Text) returns (h: Hit)
    requires ImageOk(img) && ide.IsDisk() && ide.disk == img.disk
    requires cd in img.nodes && img.nodes[cd].kind == Directory
    ensures h == FirstHit(DirEntries(img, cd), path)
  {
    hide ImageOk, DirectoryOk, DirBlock, BlockOk, Listing, Entries, FirstHit, FileOk, StartOf;
    NodeIsOk(img, cd);
    var n := img.nodes[cd];
    BlocksOf(img, n, 0);
    DirectoryFile(img, n);
    var buffer := new Byte[img.blockSize];
    var node := GetNode(img, ide, cd);
    var b, togo := 0, n.size;
    NothingListed(img, n, path);
    ghost var blocks := n.size / img.blockSize;
    while togo > 0
      invariant b <= blocks && togo == StartOf(blocks - b, img.blockSize) && FirstHit(Listing(img, n, b), path) == Miss
      invariant node.Valid() && (node.cache == null || fresh(node.cache)) && node.cache != buffer
    {
      StillToGo(blocks - b, img.blockSize);
      BlocksOf(img, n, b);
      h := SearchBlockOf(img, node, n, b, buffer, path);
      NextBlock(img, n, b, path);
      if h != Miss {
        ListingHit(img, n, b + 1, blocks, path);
        return;
      }
      b, togo := b + 1, togo - img.blockSize;
    }
    StillToGo(blocks - b, img.blockSize);
    return Miss;
  }

  lemma StillToGo(n: nat, bs: nat)
    ensures StartOf(n, bs) > 0 ==> n > 0
    ensures n > 0 ==> StartOf(n, bs) - bs == StartOf(n - 1, bs)
  {
  }

  /** find: the call recurs for every further component. */
  method Find(img: Image, ide: BlockIO, dir: nat, name: Text) returns (r: Outcome<Option<nat>>)
    requires ImageOk(img) && ide.IsDisk() && ide.disk == img.disk && dir in img.nodes
    ensures r == FindResult(Walk(img, dir, Components(name)))
    decreases |name|
  {
    hide ImageOk, DirEntries, FirstHit, Lookup, Matches;
    if img.nodes[dir].kind != Directory {
      return Panicked;
    }
    var h := SearchCounted(img, ide, dir, name);
    DirectoryHit(img, dir, name);
    match h
    case Miss => return Running(None);
    case Hit(i, m) =>
      if m == Final {
        return Running(Some(i));
      }
      assert Components(name)[1..] == Components(m.rest);
      r := Find(img, ide, i, m.rest);
  }

  // ---------- what open promises ----------

  /** When no link stands last on a relative path, open gives a file exactly when find gives it and it is
      no directory. */
  lemma OpenAgreesWithFind(img: Image, dir: nat, path: Text, f: nat)
    requires ImageOk(img) && f in img.nodes && (path == [] || path[0] != SLASH)
    requires var w := WalkPath(img, dir, path);
             w.Found? ==> w.file in img.nodes && img.nodes[w.file].kind != Symlink
    ensures Resolve(img, dir, path, 10) == Some(f) <==>
            FindResult(Walk(img, dir, Components(path))) == Running(Some(f)) && img.nodes[f].kind != Directory
  {
  }

  /** A chain of n links, each found from the directory of the one before, ending in another file. */
  ghost predicate Chain(img: Image, cd: nat, path: Text, n: nat, file: nat)
    requires ImageOk(img)
    decreases n
  {
    var w := WalkPath(img, cd, path);
    && w.Found? && w.file in img.nodes
    && if n == 0 then w.file == file && img.nodes[file].kind != Symlink && img.nodes[file].kind != Directory
       else img.nodes[w.file].kind == Symlink && Chain(img, w.dir, LinkTarget(img, w.file), n - 1, file)
  }

  lemma {:induction false} ChainOpens(img: Image, cd: nat, path: Text, n: nat, file: nat, depth: nat)
    requires ImageOk(img) && Chain(img, cd, path, n, file) && n < depth
    ensures Resolve(img, cd, path, depth) == Some(file)
    decreases n
  {
    hide WalkPath, ImageOk, LinkTarget;
    var w := WalkPath(img, cd, path);
    if n > 0 {
      ChainOpens(img, w.dir, LinkTarget(img, w.file), n - 1, file, depth - 1);
    }
  }

  lemma {:induction false} OpenedHasChain(img: Image, cd: nat, path: Text, depth: nat, file: nat) returns (n: nat)
    requires ImageOk(img) && Resolve(img, cd, path, depth) == Some(file)
    ensures n < depth && Chain(img, cd, path, n, file)
    decreases depth
  {
    hide WalkPath, ImageOk, LinkTarget;
    var w := WalkPath(img, cd, path);
    if img.nodes[w.file].kind == Symlink {
      var m := OpenedHasChain(img, w.dir, LinkTarget(img, w.file), depth - 1, file);
      n := m + 1;
    } else {
      n := 0;
    }
  }

  ghost predicate Reached(img: Image, cd: nat, path: Text, n: nat, file: nat)
    requires ImageOk(img)
  {
    Chain(img, cd, path, n, file)
  }

  /** A file is opened exactly when it is reached through fewer links than depth; open's depth is
      MAX_DEPTH, so it follows nine. */
  lemma LinksFollowed(img: Image, cd: nat, path: Text, depth: nat, file: nat)
    requires ImageOk(img)
    ensures Resolve(img, cd, path, depth) == Some(file) <==>
            exists n :: 0 <= n < depth && Reached(img, cd, path, n, file)
  {
    hide Resolve, Chain;
    if Resolve(img, cd, path, depth) == Some(file) {
      var n := OpenedHasChain(img, cd, path, depth, file);
      assert Reached(img, cd, path, n, file);
    }
    forall n | 0 <= n < depth && Reached(img, cd, path, n, file)
      ensures Resolve(img, cd, path, depth) == Some(file)
    {
      ChainOpens(img, cd, path, n, file, depth);
    }
  }
}
