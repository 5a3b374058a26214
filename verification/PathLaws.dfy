/**
 * What opening a path means, entry by entry and byte by byte: laws that the resolver of Ext2 satisfies, one for
 * every form a path can have.
 */
module PathLaws {
  import opened BlockIo
  import opened Ext2

  // ---------- paths ----------

  /** p does not begin with a slash. */
  predicate Relative(p: Text) {
    p == [] || p[0] != 47
  }

  /** An absolute path is found from i-node 2, wherever the search begins. */
  lemma AbsolutePath(img: Image, cd: nat, p: Text, depth: nat)
    requires ImageOk(img) && Relative(p)
    ensures Resolve(img, cd, [47] + p, depth) == Resolve(img, 2, p, depth)
  {
    hide ImageOk;
    assert ([47] + p)[1..] == p;
  }

  /** The first entry of directory cd that is called name has i-node i. */
  ghost predicate FirstNamed(img: Image, cd: nat, name: Text, i: nat) {
    && ImageOk(img) && cd in img.nodes && img.nodes[cd].kind == Directory
    && exists k :: NamedAt(DirEntries(img, cd), name, i, k)
  }

  ghost predicate NamedAt(es: seq<Entry>, name: Text, i: nat, k: nat) {
    k < |es| && es[k] == Entry(i, name) && forall j :: 0 <= j < k ==> es[j].name != name
  }

  ghost predicate NotNamed(img: Image, cd: nat, name: Text) {
    && ImageOk(img) && cd in img.nodes && img.nodes[cd].kind == Directory
    && forall e :: e in DirEntries(img, cd) ==> e.name != name
  }

  lemma {:induction false} LookupNamed(es: seq<Entry>, name: Text, i: nat, k: nat)
    requires NamedAt(es, name, i, k)
    ensures Lookup(es, name) == Some(i)
  {
    if k > 0 {
      assert es[0].name != name;
      LookupNamed(es[1..], name, i, k - 1);
    }
  }

  lemma {:induction false} LookupNotNamed(es: seq<Entry>, name: Text)
    requires forall e :: e in es ==> e.name != name
    ensures Lookup(es, name) == None
  {
    if es != [] {
      LookupNotNamed(es[1..], name);
    }
  }

  lemma {:induction false} SlashOf(name: Text, rest: Text)
    requires 47 !in name
    ensures Slash(name) == |name| && Slash(name + [47] + rest) == |name|
  {
    var path := name + [47] + rest;
    if name != [] {
      SlashOf(name[1..], rest);
      assert path[0] == name[0] && path[1..] == name[1..] + [47] + rest;
    }
  }

  /** How a path splits at its first slash. */
  lemma ComponentsOf(name: Text, rest: Text)
    requires 47 !in name
    ensures Components(name) == [name]
    ensures Components(name + [47] + rest) == [name] + Components(rest)
  {
    SlashOf(name, rest);
    var path := name + [47] + rest;
    assert path[..|name|] == name && path[|name| + 1..] == rest;
  }

  lemma StartsHere(cd: nat, path: Text)
    requires Relative(path)
    ensures StartDir(cd, path) == cd && StartPath(path) == path
  {
  }

  /** A name followed by a slash goes on in the directory it names, and nowhere if that is none. */
  lemma IntoDirectory(img: Image, cd: nat, name: Text, i: nat, rest: Text, depth: nat)
    requires FirstNamed(img, cd, name, i) && name != [] && 47 !in name && Relative(rest)
    ensures Resolve(img, cd, name + [47] + rest, depth) ==
      if i in img.nodes && img.nodes[i].kind == Directory then Resolve(img, i, rest, depth) else None
  {
    hide ImageOk, DirEntries;
    var k :| NamedAt(DirEntries(img, cd), name, i, k);
    LookupNamed(DirEntries(img, cd), name, i, k);
    ComponentsOf(name, rest);
    var path := name + [47] + rest;
    StartsHere(cd, path);
    StartsHere(i, rest);
    assert Components(path)[0] == name && Components(path)[1..] == Components(rest);
    assert WalkPath(img, cd, path) == Walk(img, i, Components(rest));
  }

  /** A last name opens its file; a directory is not opened; a link that begins with a slash is followed from
      i-node 2, another one from the directory it stands in, with one link less to go. */
  lemma LastName(img: Image, cd: nat, name: Text, i: nat, depth: nat)
    requires FirstNamed(img, cd, name, i) && name != [] && 47 !in name && i in img.nodes
    ensures img.nodes[i].kind != Symlink ==>
      Resolve(img, cd, name, depth + 1) == if img.nodes[i].kind == Directory then None else Some(i)
    ensures img.nodes[i].kind == Symlink ==>
      var t := LinkTarget(img, i);
      && (Relative(t) ==> Resolve(img, cd, name, depth + 1) == Resolve(img, cd, t, depth))
      && (!Relative(t) && Relative(t[1..]) ==>
          Resolve(img, cd, name, depth + 1) == Resolve(img, 2, t[1..], depth))
  {
    hide ImageOk, DirEntries, Resolve;
    var k :| NamedAt(DirEntries(img, cd), name, i, k);
    LookupNamed(DirEntries(img, cd), name, i, k);
    ComponentsOf(name, []);
    StartsHere(cd, name);
    assert WalkPath(img, cd, name) == Found(i, cd);
    ResolveFound(img, cd, name, i, cd, depth);
    if img.nodes[i].kind == Symlink && !Relative(LinkTarget(img, i)) && Relative(LinkTarget(img, i)[1..]) {
      var t := LinkTarget(img, i);
      assert t == [47] + t[1..];
      AbsolutePath(img, cd, t[1..], depth);
    }
  }

  lemma ResolveFound(img: Image, cd: nat, path: Text, i: nat, d: nat, depth: nat)
    requires ImageOk(img) && i in img.nodes && WalkPath(img, cd, path) == Found(i, d)
    ensures Resolve(img, cd, path, depth + 1) ==
      match img.nodes[i].kind
      case Symlink => Resolve(img, d, LinkTarget(img, i), depth)
      case Directory => None
      case _ => Some(i)
  {
    hide WalkPath, ImageOk;
  }

  /** A name that is not there opens nothing. */
  lemma NoSuchName(img: Image, cd: nat, name: Text, rest: Text, depth: nat)
    requires NotNamed(img, cd, name) && 47 !in name && name != []
    ensures Resolve(img, cd, name, depth) == None
    ensures Resolve(img, cd, name + [47] + rest, depth) == None
  {
    hide ImageOk, DirEntries;
    LookupNotNamed(DirEntries(img, cd), name);
    ComponentsOf(name, rest);
    StartsHere(cd, name);
    StartsHere(cd, name + [47] + rest);
    assert Components(name + [47] + rest)[0] == name;
  }

  /** No entry has an empty name, so a walk that comes to one ends. */
  lemma EmptyName(img: Image, cd: nat, names: seq<Text>)
    requires ImageOk(img) && names != [] && names[0] == []
    ensures !Walk(img, cd, names).Found?
  {
    hide ImageOk, Listing, DirectoryOk;
    if cd in img.nodes && img.nodes[cd].kind == Directory {
      NodeIsOk(img, cd);
      BlocksOf(img, img.nodes[cd], 0);
      ListingOk(img, img.nodes[cd], img.nodes[cd].size / img.blockSize);
      LookupNotNamed(DirEntries(img, cd), []);
    }
  }

  /** The empty path, and one in which two slashes follow one another, open nothing. */
  lemma EmptyPath(img: Image, cd: nat, p: Text, depth: nat)
    requires ImageOk(img)
    ensures Resolve(img, cd, [], depth) == None && Resolve(img, cd, [47, 47] + p, depth) == None
  {
    hide ImageOk, Walk;
    EmptyName(img, cd, Components([]));
    var path := [47, 47] + p;
    assert path[1..] == [] + [47] + p;
    ComponentsOf([], p);
    EmptyName(img, ROOT, Components(path[1..]));
  }

  lemma DoubledSlash(img: Image, cd: nat, name: Text, rest: Text, depth: nat)
    requires ImageOk(img) && name != [] && 47 !in name
    ensures Resolve(img, cd, name + [47] + ([47] + rest), depth) == None
  {
    hide ImageOk, Walk;
    var path := name + [47] + ([47] + rest);
    ComponentsOf(name, [47] + rest);
    ComponentsOf([], rest);
    assert [47] + rest == [] + [47] + rest;
    StartsHere(cd, path);
    assert Components(path)[1..] == Components([47] + rest);
    SecondEmpty(img, cd, Components(path));
  }

  lemma SecondEmpty(img: Image, cd: nat, names: seq<Text>)
    requires ImageOk(img) && |names| >= 2 && names[1] == []
    ensures !Walk(img, cd, names).Found?
  {
    hide ImageOk, DirEntries;
    if cd in img.nodes && img.nodes[cd].kind == Directory && Lookup(DirEntries(img, cd), names[0]).Some? {
      EmptyName(img, Lookup(DirEntries(img, cd), names[0]).value, names[1..]);
    }
  }

  /** After ten links open gives up. */
  lemma NoDepth(img: Image, cd: nat, path: Text)
    requires ImageOk(img)
    ensures Resolve(img, cd, path, 0) == None
  {
  }

  // ---------- bytes ----------

  /** A record of a directory block: an entry and what is left unused behind its name. */
  datatype Record = Record(entry: Entry, pad: seq<Byte>)

  predicate RecordOk(r: Record) {
    r.entry.inode < 0x1_0000_0000 && 8 + |r.entry.name| + |r.pad| < 0x1_0000
  }

  /** The record as it is written: i-node, length of the record, length of the name, name, padding. */
  function RecordBytes(r: Record): (b: seq<Byte>)
    requires RecordOk(r)
    ensures |b| == 8 + |r.entry.name| + |r.pad|
  {
    var i, n := r.entry.inode, |r.entry.name|;
    var len := 8 + n + |r.pad|;
    [i % 0x100, i / 0x100 % 0x100, i / 0x1_0000 % 0x100, i / 0x100_0000] +
    [len % 0x100, len / 0x100, n % 0x100, n / 0x100] + r.entry.name + r.pad
  }

  predicate RecordsOk(rs: seq<Record>) {
    forall k :: 0 <= k < |rs| ==> RecordOk(rs[k])
  }

  function BlockBytes(rs: seq<Record>): seq<Byte>
    requires RecordsOk(rs)
  {
    if rs == [] then [] else RecordBytes(rs[0]) + BlockBytes(rs[1..])
  }

  function EntriesIn(rs: seq<Record>): seq<Entry> {
    if rs == [] then [] else [rs[0].entry] + EntriesIn(rs[1..])
  }

  lemma NumberRead(b: seq<Byte>, w: nat)
    requires w < 0x1_0000_0000
    requires b == [w % 0x100, w / 0x100 % 0x100, w / 0x1_0000 % 0x100, w / 0x100_0000]
    ensures Word32(b) == w
  {
    var q := w / 0x100;
    var h := q / 0x100;
    assert w / 0x1_0000 == h && w / 0x100_0000 == h / 0x100;
  }

  lemma ShortRead(b: seq<Byte>, w: nat)
    requires w < 0x1_0000 && b == [w % 0x100, w / 0x100]
    ensures Word16(b) == w
  {
  }

  /** One record is parsed as it was written. */
  lemma RecordRead(r: Record, before: seq<Byte>, after: seq<Byte>)
    requires RecordOk(r)
    ensures var b, at := before + RecordBytes(r) + after, |before|;
            Fits(b, at) && EntryAt(b, at) == r.entry && RecLen(b, at) == |RecordBytes(r)|
  {
    hide Word32, Word16;
    var b, at, x := before + RecordBytes(r) + after, |before|, RecordBytes(r);
    var i, n, len := r.entry.inode, |r.entry.name|, |RecordBytes(r)|;
    forall j, k | 0 <= j <= k <= |x| ensures b[at + j..at + k] == x[j..k] {
    }
    NumberRead(x[0..4], i);
    ShortRead(x[4..6], len);
    ShortRead(x[6..8], n);
    assert x[8..8 + n] == r.entry.name;
    assert b[at..at + 4] == x[0..4] && b[at + 4..at + 6] == x[4..6] && b[at + 6..at + 8] == x[6..8];
    assert b[at + 8..at + 8 + n] == x[8..8 + n];
  }

  /** A block into which entries were written lists exactly these entries, in order. */
  lemma {:induction false} BlockRoundTrip(rs: seq<Record>, before: seq<Byte>)
    requires RecordsOk(rs)
    ensures Entries(before + BlockBytes(rs), |before|) == EntriesIn(rs)
    decreases |rs|
  {
    hide EntryAt, RecordBytes, RecordOk, RecLen, Fits;
    var b := before + BlockBytes(rs);
    if rs == [] {
      NothingFits(before);
      assert b == before;
    } else {
      var x := RecordBytes(rs[0]);
      RecordRead(rs[0], before, BlockBytes(rs[1..]));
      assert b == before + x + BlockBytes(rs[1..]);
      assert (before + x) + BlockBytes(rs[1..]) == b;
      BlockRoundTrip(rs[1..], before + x);
    }
  }

  lemma NothingFits(b: seq<Byte>)
    ensures !Fits(b, |b|)
  {
  }

  /** A link of less than 60 bytes is in the i-node, a longer one is a file. */
  lemma ShortOrLong(img: Image, i: nat)
    requires ImageOk(img) && i in img.nodes && img.nodes[i].kind == Symlink
    ensures |img.nodes[i].data| == 15 && img.blockSize >= 4 && |LinkTarget(img, i)| == img.nodes[i].size
    ensures img.nodes[i].size < 60 ==>
      forall j :: 0 <= j < img.nodes[i].size ==> LinkTarget(img, i)[j] == DataByte(img.nodes[i].data, j)
    ensures img.nodes[i].size >= 60 ==>
      LinkTarget(img, i) == FileContent(img.disk, img.nodes[i].data, img.blockSize, img.nodes[i].size)
  {
    hide FileOk, FileContent, DataByte;
    NodeIsOk(img, i);
  }

  /** A short link is kept in the bytes of the block numbers, least significant first. */
  lemma ShortLinkBytes(data: seq<nat>, i: nat)
    requires |data| == 15 && i < 15 && data[i] < 0x1_0000_0000
    ensures Word32([DataByte(data, 4 * i), DataByte(data, 4 * i + 1), DataByte(data, 4 * i + 2),
                    DataByte(data, 4 * i + 3)]) == data[i]
  {
    hide Word32;
    NumberRead([DataByte(data, 4 * i), DataByte(data, 4 * i + 1), DataByte(data, 4 * i + 2),
                DataByte(data, 4 * i + 3)], data[i]);
  }
}
