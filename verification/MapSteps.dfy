/** Mapping a page into an address space (map and map_copy, kernel/vmm.cc). */
module MapSteps {
  import opened Frames
  import opened PhysMem
  import opened PageGraph
  import opened VmmSteps
  import opened DirSteps
  import opened ProtectSteps
  import opened DropSteps
  import opened ClearSteps

  /** The flags every user mapping gets: present, writable, user, not global. */
  function UserWord(f: nat): Word {
    Word(f, true, true, true, false, true, 0)
  }

  function WithFlags(w: Word): Word {
    w.(p := true, rw := true, us := true, ng := true)
  }

  predicate HasFlags(w: Word) {
    w.p && w.rw && w.us && w.ng
  }

  /** Frames known before and after, other than x, are unchanged. */
  ghost predicate Changes(g: Graph, g': Graph, x: nat) {
    forall f :: f in g.kind && f in g'.kind && f != x ==>
      SameTable(g, g', f) && f in g.mem && f in g'.mem && g'.mem[f] == g.mem[f]
  }

  /** Other directories are there and show what they showed. */
  ghost predicate Elsewhere(g: Graph, g': Graph, d: nat) {
    OthersSame(g, g', d) && DirsStay(g, g')
  }

  lemma ElsewhereTrans(g0: Graph, g1: Graph, g2: Graph, d: nat)
    requires Elsewhere(g0, g1, d) && Elsewhere(g1, g2, d)
    ensures Elsewhere(g0, g2, d)
  {
    hide SameView;
    forall h | h in g0.kind && g0.kind[h].Dir? && h != d && h in g2.kind && g2.kind[h].Dir?
      ensures SameView(g0, g2, h, h)
    {
      SameViewTrans(g0, g1, g2, h);
    }
  }

  lemma ElsewhereRefl(g: Graph, d: nat)
    ensures Elsewhere(g, g, d)
  {
  }

  lemma ChangeView(g: Graph, g': Graph, kpd: nat, k: Kernel, x: nat, h: nat)
    requires Good(g, kpd, k) && Good(g', kpd, k) && Changes(g, g', x) && h != x
    requires h in g.kind && g.kind[h].Dir? && h in g'.kind && g'.kind[h].Dir?
    requires x in g.kind ==> !g.kind[x].Page?
    requires forall i :: 0 <= i < WORDS_PER_FRAME && Names(Ent(g.mem, h, i)) ==> Ent(g.mem, h, i).frame != x
    ensures SameView(g, g', h, h)
  {
    hide Good;
    ContentKept(g.mem, g'.mem, h);
    forall i, j | 0 <= i < WORDS_PER_FRAME && 0 <= j < WORDS_PER_FRAME
      ensures View(g'.mem, h, i, j) == View(g.mem, h, i, j)
    {
      TabsKnown(g, kpd, k, h, i);
      TabsKnown(g', kpd, k, h, i);
      if Names(Ent(g.mem, h, i)) {
        var t := Ent(g.mem, h, i).frame;
        ContentKept(g.mem, g'.mem, t);
        PagesKnown(g, kpd, k, t, j);
        PagesKnown(g', kpd, k, t, j);
      }
    }
  }

  /** Changing directory d itself affects no other process. */
  lemma ChangeDirElsewhere(g: Graph, g': Graph, kpd: nat, k: Kernel, d: nat)
    requires Good(g, kpd, k) && Good(g', kpd, k) && Changes(g, g', d) && DirsStay(g, g')
    requires d in g.kind && g.kind[d].Dir?
    ensures Elsewhere(g, g', d)
  {
    hide Good, SameView;
    forall h | h in g.kind && g.kind[h].Dir? && h != d && h in g'.kind && g'.kind[h].Dir?
      ensures SameView(g, g', h, h)
    {
      NoDirBelow(g, kpd, k, h, d);
      ChangeView(g, g', kpd, k, d, h);
    }
  }

  /** Changing a private table of d affects no other process. */
  lemma ChangeTabElsewhere(g: Graph, g': Graph, kpd: nat, k: Kernel, d: nat, i: nat)
    requires Good(g, kpd, k) && Good(g', kpd, k) && DirsStay(g, g')
    requires d in g.kind && g.kind[d].Dir? && Private(g, d, i) && Changes(g, g', Ent(g.mem, d, i).frame)
    ensures Elsewhere(g, g', d)
  {
    hide Good, SameView;
    PrivateOthers(g, kpd, k, d, i);
    TabsKnown(g, kpd, k, d, i);
    var x := Ent(g.mem, d, i).frame;
    forall h | h in g.kind && g.kind[h].Dir? && h != d && h in g'.kind && g'.kind[h].Dir?
      ensures SameView(g, g', h, h)
    {
      ChangeView(g, g', kpd, k, x, h);
    }
  }

  /** The leaf entries below index i of d are the same in both graphs. */
  ghost predicate LeafSame(g: Graph, g': Graph, d: nat, i: nat) {
    forall j :: 0 <= j < WORDS_PER_FRAME ==> Leaf(g'.mem, d, i, j) == Leaf(g.mem, d, i, j)
  }

  ghost predicate PageSafe(g: Graph, g': Graph, f: nat) {
    && f in g.kind && f in g.at && f in g.mem
    && f in g'.kind && f in g'.at && g'.kind[f] == g.kind[f] && g'.at[f] == g.at[f]
    && f in g'.mem && g'.mem[f] == g.mem[f]
    && (Sole(g.own, f, Hand(f)) ==> Sole(g'.own, f, Hand(f)))
  }

  /** Directory d now has its own writable table at index i, and nobody sees a difference. */
  ghost predicate Owns(g: Graph, g': Graph, k: Kernel, d: nat, i: nat, pa: nat) {
    && LiveDir(g', k, d) && Private(g', d, i)
    && SameView(g, g', d, d) && LeafSame(g, g', d, i) && Elsewhere(g, g', d) && NonSlotsKept(g, g')
    && PageSafe(g, g', pa)
  }

  /** A page held in a local variable while the fault is handled; no other frame is in flight. */
  ghost predicate InFlight(g: Graph, pa: nat, a: nat) {
    && Hand(pa) in g.own && g.own[Hand(pa)] == pa && pa in g.kind && g.kind[pa].Page? && pa in g.at && g.at[pa] == a
    && pa in g.mem && Sole(g.own, pa, Hand(pa))
    && forall r :: r in g.own && r.Hand? ==> r == Hand(pa)
  }

  /** The table is already private and writable. */
  lemma OwnsAlready(g: Graph, kpd: nat, k: Kernel, d: nat, i: nat, pa: nat, a: nat)
    requires Good(g, kpd, k) && LiveDir(g, k, d) && i < WORDS_PER_FRAME && HasFlags(Ent(g.mem, d, i))
    requires InFlight(g, pa, a)
    ensures Owns(g, g, k, d, i, pa)
  {
    hide Good, LiveDir;
    ElsewhereRefl(g, d);
  }

  // ---------- a new table ----------

  /** p is a new table, held in a local variable, whose entries are the leaves below index i of d. */
  ghost predicate Fresh(g: Graph, g1: Graph, d: nat, i: nat, p: nat) {
    && Grown(g, g1, p) && Building(g1, p, Tab, i)
    && forall j :: 0 <= j < WORDS_PER_FRAME ==> Ent(g1.mem, p, j) == Leaf(g.mem, d, i, j)
  }

  /** Nothing was mapped below the entry: an empty table will do. */
  lemma FreshEmpty(g: Graph, g1: Graph, kpd: nat, k: Kernel, d: nat, i: nat, p: nat)
    requires Good(g, kpd, k) && Allocated(g, g1, p, Tab, i) && !Ent(g.mem, d, i).p
    ensures Fresh(g, g1, d, i, p)
  {
    hide Good, Grown, Grows;
    Known(g, kpd, k);
    GrowsRefl(g1, p);
    GrownFrom(g, g1, g1, kpd, k, p, Tab, i);
  }

  /** The entry led to a table without writable private entries, or to a kernel table: copy_pt
      shares every page. */
  lemma FreshCopy(g: Graph, g1: Graph, kpd: nat, k: Kernel, d: nat, i: nat, p: nat)
    requires Good(g, kpd, k) && LiveDir(g, k, d) && i < WORDS_PER_FRAME
    requires Ent(g.mem, d, i).p && TableCopied(g, g1, Ent(g.mem, d, i).frame, p, i)
    requires Names(Ent(g.mem, d, i)) ==> !Ent(g.mem, d, i).rw
    ensures Fresh(g, g1, d, i, p)
  {
    hide Good, Grown, Building, LiveDir;
    var s := Ent(g.mem, d, i).frame;
    DirEntry(g, kpd, k, d, i);
    forall j | 0 <= j < WORDS_PER_FRAME ensures Ent(g1.mem, p, j) == Leaf(g.mem, d, i, j) {
      assert CopiedWord(g, g1, p, Ent(g.mem, s, j), Ent(g1.mem, p, j));
      NotWritableBelow(g, kpd, k, d, i, j);
    }
  }

  lemma NotWritableBelow(g: Graph, kpd: nat, k: Kernel, d: nat, i: nat, j: nat)
    requires Good(g, kpd, k) && LiveDir(g, k, d) && i < WORDS_PER_FRAME && j < WORDS_PER_FRAME
    requires Ent(g.mem, d, i).p && (Names(Ent(g.mem, d, i)) ==> !Ent(g.mem, d, i).rw)
    ensures var w := Ent(g.mem, Ent(g.mem, d, i).frame, j); !(Names(w) && w.rw)
  {
    hide EntryOk, FrameOk, RefOk, LinkOk, LiveDir;
    DirEntry(g, kpd, k, d, i);
    KernelLeaf(g, kpd, k, i, j);
    if !Names(Ent(g.mem, d, i)) {
      assert KernelTableOk(k.dir[i], k.tabs[i]);
      assert KernelWord(k.tabs[i][j]);
    }
  }

  lemma FreshKernelEntries(g: Graph, g1: Graph, kpd: nat, k: Kernel, d: nat, i: nat, p: nat)
    requires Good(g, kpd, k) && LiveDir(g, k, d) && i < WORDS_PER_FRAME && Fresh(g, g1, d, i, p)
    ensures HasKernelEntries(g1.mem, k, p, i)
  {
    hide Good, Grown, Building;
    DirEntry(g, kpd, k, d, i);
    forall j | 0 <= j < WORDS_PER_FRAME && KMaps(k, i, j) ensures Ent(g1.mem, p, j).p {
      KernelLeaf(g, kpd, k, i, j);
      assert Ent(g1.mem, p, j) == Leaf(g.mem, d, i, j);
      assert Ent(g.mem, d, i).p;
    }
  }

  /** The new table can be entered where no private table was. */
  lemma FreshPutable(g: Graph, g1: Graph, kpd: nat, k: Kernel, d: nat, i: nat, p: nat, w: Word)
    requires Good(g, kpd, k) && Good(g1, kpd, k) && LiveDir(g, k, d) && i < WORDS_PER_FRAME && Fresh(g, g1, d, i, p)
    requires !Names(Ent(g.mem, d, i)) && w.frame == p && HasFlags(w) && (w.g <==> KDir(k, i))
    ensures Putable(g1, k, d, i, w)
  {
    hide Good, HasKernelEntries, KDir;
    FreshKernelEntries(g, g1, kpd, k, d, i, p);
    Known(g1, kpd, k);
    LiveDirKnown(g, k, d);
    ContentKept(g.mem, g1.mem, d);
  }

  /** Or where the entry of a shared table has just been taken out. */
  lemma FreshTakeable(g: Graph, g1: Graph, kpd: nat, k: Kernel, d: nat, i: nat, p: nat)
    requires Good(g, kpd, k) && Good(g1, kpd, k) && LiveDir(g, k, d) && i < WORDS_PER_FRAME && Fresh(g, g1, d, i, p)
    requires Names(Ent(g.mem, d, i)) && !Ent(g.mem, d, i).rw && Hand(Ent(g.mem, d, i).frame) !in g.own
    ensures Takeable(g1, k, d, i) && !KDir(k, i) && Ent(g1.mem, d, i) == Ent(g.mem, d, i)
    ensures Ent(g.mem, d, i).frame in g.kind && g.kind[Ent(g.mem, d, i).frame].Tab? && Ent(g.mem, d, i).frame != d
    ensures IsTable(g1.mem, d) && d in g1.client && d in g1.kind && g1.kind[d].Dir?
  {
    hide Good, HasKernelEntries, KDir;
    Known(g, kpd, k);
    Known(g1, kpd, k);
    LiveDirKnown(g, k, d);
    DirEntry(g, kpd, k, d, i);
    ContentKept(g.mem, g1.mem, d);
  }

  lemma TakenPutable(g: Graph, g1: Graph, kpd: nat, k: Kernel, d: nat, i: nat, p: nat, w: Word)
    requires Good(g, kpd, k) && Good(g1, kpd, k) && LiveDir(g, k, d) && i < WORDS_PER_FRAME && Fresh(g, g1, d, i, p)
    requires Takeable(g1, k, d, i) && !KDir(k, i) && IsTable(g1.mem, d)
    requires Ent(g1.mem, d, i).frame in g.kind
    requires w.frame == p && HasFlags(w) && !w.g
    ensures Putable(Take(g1, d, i), k, d, i, w)
  {
    hide Good, KDir, HasKernelEntries;
    FreshKernelEntries(g, g1, kpd, k, d, i, p);
    LiveDirKnown(g, k, d);
    TakenFresh(g, g1, k, d, i, p);
  }

  lemma TakenFresh(g: Graph, g1: Graph, k: Kernel, d: nat, i: nat, p: nat)
    requires Fresh(g, g1, d, i, p) && IsTable(g1.mem, d) && i < WORDS_PER_FRAME
    requires d in g.kind && g.kind[d].Dir? && Ent(g1.mem, d, i).frame in g.kind
    requires HasKernelEntries(g1.mem, k, p, i)
    ensures Building(Take(g1, d, i), p, Tab, i) && HasKernelEntries(Take(g1, d, i).mem, k, p, i)
    ensures !Names(Ent(Take(g1, d, i).mem, d, i)) && d != p && d in g1.kind && d in g1.at && g1.kind[d].Dir?
  {
    hide KDir, KMaps, Leaf;
    SetEntOne(g1.mem, d, i, ZERO_WORD);
    ContentKept(g1.mem, Take(g1, d, i).mem, p);
  }

  lemma GoodTake(g: Graph, kpd: nat, k: Kernel, t: nat, i: nat)
    requires Good(g, kpd, k) && Takeable(g, k, t, i)
    ensures IsTable(g.mem, t) && Good(Take(g, t, i), kpd, k)
  {
    hide Wf, KernelThere, KMaps, KDir;
    Known(g, kpd, k);
    TakeOk(g, k, t, i);
    SetEntOne(g.mem, t, i, ZERO_WORD);
    KernelKept(g, Take(g, t, i), kpd, k);
  }

  /** The directory entry has been pointed at the new table. */
  ghost predicate Installed(g: Graph, g1: Graph, g': Graph, d: nat, i: nat, p: nat, w: Word) {
    && Fresh(g, g1, d, i, p) && w.frame == p && HasFlags(w) && i < WORDS_PER_FRAME && IsTable(g1.mem, d)
    && g'.mem == SetEnt(g1.mem, d, i, w) && g'.kind == g1.kind && g'.at == g1.at && g'.client == g1.client
  }

  lemma InstalledMem(g: Graph, g1: Graph, g': Graph, kpd: nat, k: Kernel, d: nat, i: nat, p: nat, w: Word)
    requires Good(g, kpd, k) && LiveDir(g, k, d) && Installed(g, g1, g', d, i, p, w)
    ensures p != d && Ent(g'.mem, d, i) == w && IsTable(g'.mem, d)
    ensures forall n :: n != i ==> Ent(g'.mem, d, n) == Ent(g.mem, d, n)
    ensures forall j :: 0 <= j < WORDS_PER_FRAME ==> Ent(g'.mem, p, j) == Leaf(g.mem, d, i, j)
    ensures forall f :: f in g.kind && f != d ==>
      SameTable(g, g', f) && f in g.mem && f in g'.mem && g'.mem[f] == g.mem[f]
    ensures d in g'.kind && g'.kind[d].Dir?
  {
    hide Good, KDir, Leaf, Ent, SetEnt, HandsKept;
    LiveDirKnown(g, k, d);
    SetEntOne(g1.mem, d, i, w);
    ContentKept(g.mem, g1.mem, d);
    ContentKept(g1.mem, g'.mem, p);
  }

  lemma InstalledView(g: Graph, g1: Graph, g': Graph, kpd: nat, k: Kernel, d: nat, i: nat, p: nat, w: Word)
    requires Good(g, kpd, k) && LiveDir(g, k, d) && Installed(g, g1, g', d, i, p, w)
    ensures SameView(g, g', d, d) && LeafSame(g, g', d, i) && LiveDir(g', k, d) && Private(g', d, i)
  {
    hide Good, Installed, LiveDir, IsTable;
    LiveDirKnown(g, k, d);
    InstalledMem(g, g1, g', kpd, k, d, i, p, w);
    InstalledFlags(g, g1, g', d, i, p, w);
    forall n, j | 0 <= n < WORDS_PER_FRAME && 0 <= j < WORDS_PER_FRAME
      ensures View(g'.mem, d, n, j) == View(g.mem, d, n, j)
    {
      InstalledPage(g, g', kpd, k, d, i, p, w, n, j);
    }
    InstalledLeaf(g, g', d, i, p, w);
    NewTableLive(g, g', k, d, i, w);
  }

  lemma InstalledFlags(g: Graph, g1: Graph, g': Graph, d: nat, i: nat, p: nat, w: Word)
    requires Installed(g, g1, g', d, i, p, w)
    ensures HasFlags(w) && w.frame == p && i < WORDS_PER_FRAME && p !in g.kind
  {
  }

  lemma InstalledLeaf(g: Graph, g': Graph, d: nat, i: nat, p: nat, w: Word)
    requires Ent(g'.mem, d, i) == w && w.p && w.frame == p
    requires forall j :: 0 <= j < WORDS_PER_FRAME ==> Ent(g'.mem, p, j) == Leaf(g.mem, d, i, j)
    ensures LeafSame(g, g', d, i)
  {
    hide Ent;
  }

  lemma InstalledPage(g: Graph, g': Graph, kpd: nat, k: Kernel, d: nat, i: nat, p: nat, w: Word, n: nat, j: nat)
    requires Good(g, kpd, k) && LiveDir(g, k, d) && n < WORDS_PER_FRAME && j < WORDS_PER_FRAME && i < WORDS_PER_FRAME
    requires Ent(g'.mem, d, i) == w && HasFlags(w) && w.frame == p
    requires n != i ==> Ent(g'.mem, d, n) == Ent(g.mem, d, n)
    requires Ent(g'.mem, p, j) == Leaf(g.mem, d, i, j)
    requires forall f :: f in g.kind && f != d ==> f in g.mem && f in g'.mem && g'.mem[f] == g.mem[f]
    ensures View(g'.mem, d, n, j) == View(g.mem, d, n, j)
  {
    hide Good, LiveDir, KDir;
    LiveDirKnown(g, k, d);
    TabsKnown(g, kpd, k, d, n);
    DirEntry(g, kpd, k, d, i);
    if Names(Ent(g.mem, d, n)) {
      var t := Ent(g.mem, d, n).frame;
      ContentKept(g.mem, g'.mem, t);
      PagesKnown(g, kpd, k, t, j);
    } else if n == i && Ent(g.mem, d, i).p {
      KernelPage(g, kpd, k, i, j);
    }
  }

  /** Kernel tables name no private page. */
  lemma KernelPage(g: Graph, kpd: nat, k: Kernel, i: nat, j: nat)
    requires Good(g, kpd, k) && KDir(k, i) && i < WORDS_PER_FRAME && j < WORDS_PER_FRAME
    ensures !Names(Ent(g.mem, k.dir[i].frame, j))
  {
    hide EntryOk, FrameOk, RefOk, LinkOk;
    KernelLeaf(g, kpd, k, i, j);
    assert KernelTableOk(k.dir[i], k.tabs[i]);
    assert KernelWord(k.tabs[i][j]);
  }

  lemma NewTableLive(g: Graph, g': Graph, k: Kernel, d: nat, i: nat, e: Word)
    requires LiveDir(g, k, d) && i < WORDS_PER_FRAME && e.p
    requires d in g'.kind && g'.kind[d].Dir? && IsTable(g'.mem, d)
    requires Ent(g'.mem, d, i) == e && forall j :: j != i ==> Ent(g'.mem, d, j) == Ent(g.mem, d, j)
    ensures LiveDir(g', k, d)
  {
  }

  /** Owns, with the references outside tables left open. */
  lemma InstalledOthers(g: Graph, g1: Graph, g': Graph, kpd: nat, k: Kernel, d: nat, i: nat, p: nat, w: Word)
    requires Good(g, kpd, k) && Good(g', kpd, k) && LiveDir(g, k, d) && Installed(g, g1, g', d, i, p, w)
    ensures Elsewhere(g, g', d)
  {
    hide Good, Installed, LiveDir, IsTable, Elsewhere;
    LiveDirKnown(g, k, d);
    InstalledMem(g, g1, g', kpd, k, d, i, p, w);
    InstalledSettled(g, g1, g', d, i, p, w);
    assert DirsStay(g, g');
    ChangeDirElsewhere(g, g', kpd, k, d);
  }

  lemma InstalledSettled(g: Graph, g1: Graph, g': Graph, d: nat, i: nat, p: nat, w: Word)
    requires Installed(g, g1, g', d, i, p, w)
    ensures StaysSettled(g, g')
  {
  }

  /** The new table replaced a kernel entry or an empty one. */
  lemma OwnsNew(g: Graph, g1: Graph, g': Graph, kpd: nat, k: Kernel, d: nat, i: nat, p: nat, w: Word, pa: nat, a: nat)
    requires Good(g, kpd, k) && Good(g', kpd, k) && LiveDir(g, k, d) && Installed(g, g1, g', d, i, p, w)
    requires InFlight(g, pa, a) && g'.own == (g1.own - {Hand(p)})[Slot(d, i) := p]
    ensures Owns(g, g', k, d, i, pa)
  {
    hide Good, Installed, LiveDir, IsTable, Elsewhere, SameView, LeafSame;
    InstalledView(g, g1, g', kpd, k, d, i, p, w);
    InstalledOthers(g, g1, g', kpd, k, d, i, p, w);
    LiveDirKnown(g, k, d);
    InstalledFlags(g, g1, g', d, i, p, w);
    InstalledSafe(g, g1, g', kpd, k, d, i, p, w, pa, a);
    InstalledOwn(g, g1, g', kpd, k, d, i, p, w);
  }

  lemma InstalledOwn(g: Graph, g1: Graph, g': Graph, kpd: nat, k: Kernel, d: nat, i: nat, p: nat, w: Word)
    requires Good(g, kpd, k) && Installed(g, g1, g', d, i, p, w) && g'.own == (g1.own - {Hand(p)})[Slot(d, i) := p]
    ensures NonSlotsKept(g, g')
  {
    hide Wf, KernelThere, IsTable, SetEnt, Ent, HandsKept;
    Known(g, kpd, k);
    Closed(g, k);
  }

  lemma InstalledSafe(g: Graph, g1: Graph, g': Graph, kpd: nat, k: Kernel, d: nat, i: nat, p: nat, w: Word, pa: nat,
                      a: nat)
    requires Good(g, kpd, k) && LiveDir(g, k, d) && Installed(g, g1, g', d, i, p, w)
    requires InFlight(g, pa, a) && forall r :: r in g'.own && g'.own[r] == pa ==> r in g1.own && g1.own[r] == pa
    ensures PageSafe(g, g', pa)
  {
    hide Good, LiveDir, SetEnt;
    InstalledMem(g, g1, g', kpd, k, d, i, p, w);
    LiveDirKnown(g, k, d);
  }

  // ---------- a shared table is replaced ----------

  /** Entry i of d named a shared table and now names the new one; the old table is still held. */
  ghost function Swap(g: Graph, d: nat, i: nat, w: Word): Graph
    requires IsTable(g.mem, d) && i < WORDS_PER_FRAME
  {
    Put(Take(g, d, i), d, i, w)
  }

  lemma SwapGood(g: Graph, g1: Graph, kpd: nat, k: Kernel, d: nat, i: nat, p: nat, w: Word)
    requires Good(g, kpd, k) && Good(g1, kpd, k) && LiveDir(g, k, d) && i < WORDS_PER_FRAME && Fresh(g, g1, d, i, p)
    requires Names(Ent(g.mem, d, i)) && !Ent(g.mem, d, i).rw && Hand(Ent(g.mem, d, i).frame) !in g.own
    requires w.frame == p && HasFlags(w) && !w.g
    ensures IsTable(g1.mem, d) && Good(Swap(g1, d, i, w), kpd, k)
    ensures Swap(g1, d, i, w).mem == SetEnt(g1.mem, d, i, w)
    ensures Installed(g, g1, Swap(g1, d, i, w), d, i, p, w)
  {
    hide Good, Fresh, KDir, IsTable, Ent, SetEnt, Takeable, Putable, LiveDir;
    FreshTakeable(g, g1, kpd, k, d, i, p);
    GoodTake(g1, kpd, k, d, i);
    TakenPutable(g, g1, kpd, k, d, i, p, w);
    GoodPut(Take(g1, d, i), kpd, k, d, i, w);
    SetTwice(g1.mem, d, i, ZERO_WORD, w);
  }

  /** Releasing the old table ends the swap. */
  lemma SwapOwns(g: Graph, g1: Graph, g2: Graph, g': Graph, kpd: nat, k: Kernel,
                 d: nat, i: nat, p: nat, w: Word, pa: nat, a: nat, f: nat)
    requires Good(g, kpd, k) && Good(g2, kpd, k) && Good(g', kpd, k) && LiveDir(g, k, d)
    requires Installed(g, g1, g2, d, i, p, w) && InFlight(g, pa, a)
    requires f in g.kind && g.kind[f].Tab? && Hand(f) !in g.own
    requires g2.own == (((g1.own - {Slot(d, i)})[Hand(f) := f]) - {Hand(p)})[Slot(d, i) := p]
    requires Loses(g2, g', Hand(f)) && Hand(f) !in g'.own
    ensures Owns(g, g', k, d, i, pa)
  {
    hide Good, Installed, LiveDir, IsTable, Elsewhere, SameView, LeafSame, Loses;
    LiveDirKnown(g, k, d);
    InstalledFlags(g, g1, g2, d, i, p, w);
    InstalledView(g, g1, g2, kpd, k, d, i, p, w);
    InstalledOthers(g, g1, g2, kpd, k, d, i, p, w);
    InstalledSafe(g, g1, g2, kpd, k, d, i, p, w, pa, a);
    SwapOwn(g, g1, g2, g', kpd, k, d, i, p, w, f);
    InstalledMem(g, g1, g2, kpd, k, d, i, p, w);
    SwapHand(g, g1, g2, kpd, k, d, i, p, w, f, pa, a);
    LosesOwns(g2, g', kpd, k, d, i, pa, f);
    SameViewTrans2(g, g2, g', d, i);
    ElsewhereTrans(g, g2, g', d);
  }

  lemma SameViewTrans2(g0: Graph, g1: Graph, g2: Graph, d: nat, i: nat)
    requires SameView(g0, g1, d, d) && SameView(g1, g2, d, d) && LeafSame(g0, g1, d, i) && LeafSame(g1, g2, d, i)
    ensures SameView(g0, g2, d, d) && LeafSame(g0, g2, d, i)
  {
    hide Leaf, View;
  }

  lemma SwapOwn(g: Graph, g1: Graph, g2: Graph, g': Graph, kpd: nat, k: Kernel, d: nat, i: nat, p: nat, w: Word, f: nat)
    requires Good(g, kpd, k) && Installed(g, g1, g2, d, i, p, w) && f in g.kind && Hand(f) !in g.own
    requires g2.own == (((g1.own - {Slot(d, i)})[Hand(f) := f]) - {Hand(p)})[Slot(d, i) := p]
    requires Loses(g2, g', Hand(f)) && Hand(f) !in g'.own
    ensures NonSlotsKept(g, g')
  {
    hide Wf, KernelThere, IsTable, SetEnt, Ent, HandsKept;
    Known(g, kpd, k);
    Closed(g, k);
  }

  lemma SwapHand(g: Graph, g1: Graph, g2: Graph, kpd: nat, k: Kernel, d: nat, i: nat, p: nat, w: Word, f: nat,
                 pa: nat, a: nat)
    requires InFlight(g, pa, a) && Good(g, kpd, k) && LiveDir(g, k, d) && Installed(g, g1, g2, d, i, p, w)
    requires f in g.kind && g.kind[f].Tab?
    requires g2.own == (((g1.own - {Slot(d, i)})[Hand(f) := f]) - {Hand(p)})[Slot(d, i) := p]
    ensures Hand(f) in g2.own && g2.own[Hand(f)] == f && f in g2.kind && g2.kind[f].Tab?
    ensures Hand(pa) in g2.own && g2.own[Hand(pa)] == pa && pa != f
  {
    hide Good, IsTable, SetEnt, Ent, HandsKept;
    LiveDirKnown(g, k, d);
  }

  /** Giving up a table that no directory of interest reaches leaves private tables as they are. */
  lemma LosesOwns(g: Graph, g': Graph, kpd: nat, k: Kernel, d: nat, i: nat, pa: nat, f: nat)
    requires Good(g, kpd, k) && Good(g', kpd, k) && Loses(g, g', Hand(f)) && LiveDir(g, k, d) && Private(g, d, i)
    requires Hand(f) in g.own && g.own[Hand(f)] == f && f in g.kind && g.kind[f].Tab?
    requires Hand(pa) in g.own && g.own[Hand(pa)] == pa && pa != f && PageSafe(g, g, pa)
    ensures SameView(g, g', d, d) && LeafSame(g, g', d, i) && LiveDir(g', k, d) && Private(g', d, i)
    ensures Elsewhere(g, g', d) && PageSafe(g, g', pa)
  {
    hide Good, LiveDir, SameView, KDir, LeafSame;
    LiveDirKnown(g, k, d);
    LosesDirs(g, g', kpd, k, Hand(f));
    LosesView(g, g', kpd, k, Hand(f), d);
    LosesLeaf(g, g', kpd, k, d, i, f);
    LosesSafe(g, g', kpd, k, pa, f);
    forall h | h in g.kind && g.kind[h].Dir? && h != d ensures SameView(g, g', h, h) {
      LosesView(g, g', kpd, k, Hand(f), h);
    }
  }

  lemma LosesLeaf(g: Graph, g': Graph, kpd: nat, k: Kernel, d: nat, i: nat, f: nat)
    requires Good(g, kpd, k) && Good(g', kpd, k) && Loses(g, g', Hand(f)) && Private(g, d, i)
    requires d in g'.kind && g'.kind[d].Dir?
    ensures LeafSame(g, g', d, i) && Private(g', d, i)
  {
    hide Good;
    ContentKept(g.mem, g'.mem, d);
    TabsKnown(g', kpd, k, d, i);
    ContentKept(g.mem, g'.mem, Ent(g.mem, d, i).frame);
  }

  lemma LosesSafe(g: Graph, g': Graph, kpd: nat, k: Kernel, pa: nat, f: nat)
    requires Good(g', kpd, k) && Loses(g, g', Hand(f))
    requires Hand(pa) in g.own && g.own[Hand(pa)] == pa && pa != f && PageSafe(g, g, pa)
    ensures PageSafe(g, g', pa)
  {
    hide Good;
    assert Hand(pa) in g'.own;
    Known(g', kpd, k);
  }

  // ---------- the page itself ----------

  /** Both entries on the way to page (i, j) of d let a user program write. */
  ghost predicate Writable(mem: Memory, d: nat, i: nat, j: nat) {
    HasFlags(Ent(mem, d, i)) && HasFlags(Ent(mem, Ent(mem, d, i).frame, j))
  }

  /** The page that was in flight is no longer held; other references outside tables are as before. */
  ghost predicate HandGone(g: Graph, g': Graph, pa: nat) {
    && Hand(pa) !in g'.own
    && forall r: Ref :: !r.Slot? && r != Hand(pa) ==>
      (r in g.own <==> r in g'.own) && (r in g.own ==> g'.own[r] == g.own[r])
  }

  /** Page (i, j) of d became writable and nobody sees a difference. */
  ghost predicate Mapped(g: Graph, g': Graph, k: Kernel, d: nat, i: nat, j: nat, pa: nat) {
    && LiveDir(g', k, d) && SameView(g, g', d, d) && Elsewhere(g, g', d)
    && Writable(g'.mem, d, i, j) && HandGone(g, g', pa)
  }

  lemma PagePutable(g: Graph, kpd: nat, k: Kernel, d: nat, i: nat, j: nat, t: nat, pa: nat)
    requires Good(g, kpd, k) && LiveDir(g, k, d) && Private(g, d, i) && t == Ent(g.mem, d, i).frame
    requires j < WORDS_PER_FRAME && !Ent(g.mem, t, j).p && InFlight(g, pa, i * WORDS_PER_FRAME + j)
    ensures Putable(g, k, t, j, UserWord(pa)) && HasFlags(Ent(g.mem, d, i)) && IsTable(g.mem, t)
  {
    hide Good, LiveDir;
    LiveDirKnown(g, k, d);
    DirEntry(g, kpd, k, d, i);
    Known(g, kpd, k);
    PrivateOthers(g, kpd, k, d, i);
  }

  /** Table t of d now names pa where it led to a page with the same content, or to nothing. */
  ghost predicate LeafWritten(g: Graph, g': Graph, t: nat, j: nat, pa: nat) {
    && Changes(g, g', t) && pa in g.mem && pa in g'.mem && g'.mem[pa] == g.mem[pa]
    && PageOf(g.mem, Ent(g.mem, t, j)) == g.mem[pa]
    && Ent(g'.mem, t, j) == UserWord(pa)
    && forall n :: n != j ==> Ent(g'.mem, t, n) == Ent(g.mem, t, n)
  }

  lemma LeafWrittenView(g: Graph, g': Graph, kpd: nat, k: Kernel, d: nat, i: nat, j: nat, t: nat, pa: nat)
    requires Good(g, kpd, k) && Good(g', kpd, k) && LiveDir(g, k, d) && Private(g, d, i) && t == Ent(g.mem, d, i).frame
    requires j < WORDS_PER_FRAME && LeafWritten(g, g', t, j, pa) && DirsStay(g, g')
    ensures SameView(g, g', d, d) && LiveDir(g', k, d) && Ent(g'.mem, d, i) == Ent(g.mem, d, i)
  {
    hide Good, LiveDir, KDir, LeafWritten;
    LiveDirKnown(g, k, d);
    LeafWrittenDir(g, g', kpd, k, d, i, j, t, pa);
    LiveDirKept(g, g', k, d);
    forall n, m | 0 <= n < WORDS_PER_FRAME && 0 <= m < WORDS_PER_FRAME
      ensures View(g'.mem, d, n, m) == View(g.mem, d, n, m)
    {
      if Names(Ent(g.mem, d, n)) {
        LeafWrittenPage(g, g', kpd, k, d, i, j, t, pa, n, m);
      }
    }
  }

  lemma LeafWrittenDir(g: Graph, g': Graph, kpd: nat, k: Kernel, d: nat, i: nat, j: nat, t: nat, pa: nat)
    requires Good(g, kpd, k) && d in g.kind && g.kind[d].Dir? && Private(g, d, i) && t == Ent(g.mem, d, i).frame
    requires LeafWritten(g, g', t, j, pa) && DirsStay(g, g')
    ensures SameTable(g, g', d) && d in g.mem && d in g'.mem && g'.mem[d] == g.mem[d] && t != d
    ensures forall n :: Ent(g'.mem, d, n) == Ent(g.mem, d, n)
  {
    hide Good;
    TabsKnown(g, kpd, k, d, i);
    assert d in g'.kind;
    ContentKept(g.mem, g'.mem, d);
  }

  lemma LeafWrittenPage(g: Graph, g': Graph, kpd: nat, k: Kernel, d: nat, i: nat, j: nat, t: nat, pa: nat, n: nat,
                        m: nat)
    requires Good(g, kpd, k) && Good(g', kpd, k) && d in g.kind && g.kind[d].Dir? && Private(g, d, i)
    requires t == Ent(g.mem, d, i).frame && n < WORDS_PER_FRAME && m < WORDS_PER_FRAME
    requires LeafWritten(g, g', t, j, pa) && d in g'.kind && g'.kind[d].Dir?
    requires Ent(g'.mem, d, n) == Ent(g.mem, d, n) && Names(Ent(g.mem, d, n))
    ensures TabPage(g'.mem, Ent(g.mem, d, n).frame, m) == TabPage(g.mem, Ent(g.mem, d, n).frame, m)
  {
    hide Good, LiveDir, KDir;
    var u := Ent(g.mem, d, n).frame;
    TabsKnown(g, kpd, k, d, i);
    TabsKnown(g, kpd, k, d, n);
    TabsKnown(g', kpd, k, d, n);
    PagesKnown(g, kpd, k, u, m);
    PagesKnown(g', kpd, k, u, m);
    if u != t {
      ContentKept(g.mem, g'.mem, u);
    }
  }

  lemma LeafWrittenMapped(g: Graph, g': Graph, kpd: nat, k: Kernel, d: nat, i: nat, j: nat, t: nat, pa: nat)
    requires Good(g, kpd, k) && Good(g', kpd, k) && LiveDir(g, k, d) && Private(g, d, i) && t == Ent(g.mem, d, i).frame
    requires j < WORDS_PER_FRAME && LeafWritten(g, g', t, j, pa) && DirsStay(g, g')
    requires HandGone(g, g', pa) && HasFlags(Ent(g.mem, d, i))
    ensures Mapped(g, g', k, d, i, j, pa)
  {
    hide Good, LiveDir, SameView, Elsewhere, HandGone;
    LiveDirKnown(g, k, d);
    LeafWrittenView(g, g', kpd, k, d, i, j, t, pa);
    ChangeTabElsewhere(g, g', kpd, k, d, i);
  }

  /** map: the entry was absent and the new page is still zero. */
  lemma MapPage(g: Graph, kpd: nat, k: Kernel, d: nat, i: nat, j: nat, t: nat, pa: nat)
    requires Good(g, kpd, k) && LiveDir(g, k, d) && Private(g, d, i) && t == Ent(g.mem, d, i).frame
    requires j < WORDS_PER_FRAME && !Ent(g.mem, t, j).p && InFlight(g, pa, i * WORDS_PER_FRAME + j)
    requires g.mem[pa] == ZeroFrame()
    ensures IsTable(g.mem, t)
    ensures var g' := Put(g, t, j, UserWord(pa)); Good(g', kpd, k) && Mapped(g, g', k, d, i, j, pa)
  {
    hide Good, LiveDir, Mapped, Putable;
    Known(g, kpd, k);
    PagePutable(g, kpd, k, d, i, j, t, pa);
    var g' := Put(g, t, j, UserWord(pa));
    GoodPut(g, kpd, k, t, j, UserWord(pa));
    PutPageWritten(g, g, kpd, k, d, i, j, t, pa);
    LeafWrittenMapped(g, g', kpd, k, d, i, j, t, pa);
  }

  /** g1 is g after its entry j of t may have been given up; then pa is put there. */
  lemma PutPageWritten(g: Graph, g1: Graph, kpd: nat, k: Kernel, d: nat, i: nat, j: nat, t: nat, pa: nat)
    requires Good(g, kpd, k) && LiveDir(g, k, d) && Private(g, d, i) && t == Ent(g.mem, d, i).frame
    requires j < WORDS_PER_FRAME && InFlight(g, pa, i * WORDS_PER_FRAME + j) && IsTable(g1.mem, t)
    requires PageOf(g.mem, Ent(g.mem, t, j)) == g.mem[pa]
    requires Changes(g, g1, t) && DirsStay(g, g1) && NonSlotsKept(g, g1) && pa in g1.kind
    requires forall n :: n != j ==> Ent(g1.mem, t, n) == Ent(g.mem, t, n)
    ensures var g' := Put(g1, t, j, UserWord(pa));
            LeafWritten(g, g', t, j, pa) && DirsStay(g, g') && HandGone(g, g', pa)
  {
    hide Good, LiveDir;
    LiveDirKnown(g, k, d);
    TabsKnown(g, kpd, k, d, i);
    SetEntOne(g1.mem, t, j, UserWord(pa));
  }

  // ---------- map_copy ----------

  /** The new page receives a copy of another one. */
  lemma FillPage(g: Graph, g': Graph, kpd: nat, k: Kernel, d: nat, pa: nat, a: nat, fr: Frame)
    requires Good(g, kpd, k) && LiveDir(g, k, d) && InFlight(g, pa, a) && fr.Words? && |fr.ws| == WORDS_PER_FRAME
    requires g' == g.(mem := g.mem[pa := fr])
    ensures Good(g', kpd, k) && LiveDir(g', k, d) && SameView(g, g', d, d) && Elsewhere(g, g', d) && InFlight(g', pa, a)
    ensures forall t, j :: t != pa ==> Ent(g'.mem, t, j) == Ent(g.mem, t, j)
  {
    hide Wf, KernelThere, LiveDir, SameView;
    Known(g, kpd, k);
    LiveDirKnown(g, k, d);
    KernelKept(g, g', kpd, k);
    WfMem(g, k, g'.mem);
    LiveDirKept(g, g', k, d);
    forall h | h in g.kind && g.kind[h].Dir? ensures SameView(g, g', h, h) {
      FillPageView(g, g', kpd, k, h, pa, a, fr);
    }
  }

  lemma FillPageView(g: Graph, g': Graph, kpd: nat, k: Kernel, h: nat, pa: nat, a: nat, fr: Frame)
    requires Good(g, kpd, k) && InFlight(g, pa, a) && g' == g.(mem := g.mem[pa := fr])
    requires h in g.kind && g.kind[h].Dir?
    ensures SameView(g, g', h, h)
  {
    hide Good;
    Known(g, kpd, k);
    ContentKept(g.mem, g'.mem, h);
    forall n, m | 0 <= n < WORDS_PER_FRAME && 0 <= m < WORDS_PER_FRAME
      ensures View(g'.mem, h, n, m) == View(g.mem, h, n, m)
    {
      TabsKnown(g, kpd, k, h, n);
      if Names(Ent(g.mem, h, n)) {
        var t := Ent(g.mem, h, n).frame;
        ContentKept(g.mem, g'.mem, t);
        NotInFlight(g, kpd, k, t, m, pa, a);
      }
    }
  }

  lemma NotInFlight(g: Graph, kpd: nat, k: Kernel, t: nat, m: nat, pa: nat, a: nat)
    requires Good(g, kpd, k) && InFlight(g, pa, a) && LiveTable(g, t) && m < WORDS_PER_FRAME
    ensures Names(Ent(g.mem, t, m)) ==> Ent(g.mem, t, m).frame != pa
  {
    hide Wf;
    if Names(Ent(g.mem, t, m)) {
      NamedRef(g, kpd, k, t, m);
    }
  }

  /** The old page's reference is taken out of its entry and given up. */
  lemma TakePage(g: Graph, g1: Graph, kpd: nat, k: Kernel, d: nat, i: nat, j: nat, t: nat, pa: nat)
    requires Good(g, kpd, k) && LiveDir(g, k, d) && Private(g, d, i) && t == Ent(g.mem, d, i).frame
    requires j < WORDS_PER_FRAME && InFlight(g, pa, i * WORDS_PER_FRAME + j) && IsTable(g.mem, t)
    requires Names(Ent(g.mem, t, j)) && Good(g1, kpd, k)
    requires var f := Ent(g.mem, t, j).frame;
             && Shrinks(Take(g, t, j), g1, t, Hand(f)) && g1.own == Take(g, t, j).own - {Hand(f)}
             && g1.at == g.at && (g1.kind == g.kind || g1.kind == g.kind - {f})
    ensures LiveDir(g1, k, d) && Private(g1, d, i) && t == Ent(g1.mem, d, i).frame && !Ent(g1.mem, t, j).p
    ensures InFlight(g1, pa, i * WORDS_PER_FRAME + j) && IsTable(g1.mem, t)
    ensures Changes(g, g1, t) && DirsStay(g, g1) && NonSlotsKept(g, g1) && pa in g1.kind
    ensures forall n :: n != j ==> Ent(g1.mem, t, n) == Ent(g.mem, t, n)
  {
    hide Good, LiveDir, KDir, Ent, SetEnt;
    LiveDirKnown(g, k, d);
    TabsKnown(g, kpd, k, d, i);
    PageBelow(g, kpd, k, t, j);
    var s := Take(g, t, j);
    SetEntOne(g.mem, t, j, ZERO_WORD);
    TakePageShrinks(g, s, g1, kpd, k, t, j, d, pa);
    ContentKept(s.mem, g1.mem, t);
    ContentKept(g.mem, g1.mem, d);
    LiveDirKept(g, g1, k, d);
    TakePageOwn(g, g1, kpd, k, t, j, pa, i * WORDS_PER_FRAME + j);
  }

  lemma TakePageShrinks(g: Graph, s: Graph, g1: Graph, kpd: nat, k: Kernel, t: nat, j: nat, d: nat, pa: nat)
    requires IsTable(g.mem, t) && j < WORDS_PER_FRAME && s == Take(g, t, j)
    requires Shrinks(s, g1, t, Hand(Ent(g.mem, t, j).frame))
    requires Good(g, kpd, k) && t in g.kind && g.kind[t].Tab? && g1.at == g.at
    requires var f := Ent(g.mem, t, j).frame;
             f in g.kind && g.kind[f].Page? && (g1.kind == g.kind || g1.kind == g.kind - {f}) && pa != f
    requires d in g.kind && g.kind[d].Dir? && pa in g.kind && g.kind[pa].Page?
    ensures Changes(g, g1, t) && DirsStay(g, g1)
    ensures t in g1.kind && t in s.mem && t in g1.mem && g1.mem[t] == s.mem[t] && IsTable(g1.mem, t)
    ensures d in g.mem && d in g1.mem && g1.mem[d] == g.mem[d] && SameTable(g, g1, d)
    ensures pa in g1.kind && pa in g1.mem && pa in g.mem && g1.mem[pa] == g.mem[pa] && g1.kind[pa] == g.kind[pa]
  {
    hide Good;
    Known(g, kpd, k);
    SetEntOne(g.mem, t, j, ZERO_WORD);
  }

  lemma TakePageOwn(g: Graph, g1: Graph, kpd: nat, k: Kernel, t: nat, j: nat, pa: nat, a: nat)
    requires IsTable(g.mem, t) && InFlight(g, pa, a)
    requires Slot(t, j) in g.own && g.own[Slot(t, j)] == Ent(g.mem, t, j).frame
    requires var f := Ent(g.mem, t, j).frame;
             && g1.own == ((g.own - {Slot(t, j)})[Hand(f) := f]) - {Hand(f)} && g1.at == g.at
             && pa in g1.kind && g1.kind[pa] == g.kind[pa] && pa in g1.mem
    ensures NonSlotsKept(g, g1) && InFlight(g1, pa, a)
  {
    hide Ent, IsTable;
  }

  lemma CopiedOver(g: Graph, g1: Graph, kpd: nat, k: Kernel, d: nat, i: nat, j: nat, t: nat, pa: nat)
    requires Good(g, kpd, k) && LiveDir(g, k, d) && Private(g, d, i) && t == Ent(g.mem, d, i).frame
    requires j < WORDS_PER_FRAME && InFlight(g, pa, i * WORDS_PER_FRAME + j) && IsTable(g.mem, t)
    requires Names(Ent(g.mem, t, j)) && PageOf(g.mem, Ent(g.mem, t, j)) == g.mem[pa] && Good(g1, kpd, k)
    requires var f := Ent(g.mem, t, j).frame;
             && Shrinks(Take(g, t, j), g1, t, Hand(f)) && g1.own == Take(g, t, j).own - {Hand(f)}
             && g1.at == g.at && (g1.kind == g.kind || g1.kind == g.kind - {f})
    ensures IsTable(g1.mem, t)
    ensures var g' := Put(g1, t, j, UserWord(pa)); Good(g', kpd, k) && Mapped(g, g', k, d, i, j, pa)
  {
    hide Good, LiveDir, Mapped, Putable, Shrinks, LeafWritten, HandGone, DirsStay, NonSlotsKept, Changes, Private,
        InFlight;
    TakePage(g, g1, kpd, k, d, i, j, t, pa);
    PagePutable(g1, kpd, k, d, i, j, t, pa);
    GoodPut(g1, kpd, k, t, j, UserWord(pa));
    PutPageWritten(g, g1, kpd, k, d, i, j, t, pa);
    PrivateFlags(g, kpd, k, d, i);
    LeafWrittenMapped(g, Put(g1, t, j, UserWord(pa)), kpd, k, d, i, j, t, pa);
  }

  lemma PrivateFlags(g: Graph, kpd: nat, k: Kernel, d: nat, i: nat)
    requires Good(g, kpd, k) && LiveDir(g, k, d) && Private(g, d, i)
    ensures HasFlags(Ent(g.mem, d, i))
  {
    hide Good, LiveDir;
    DirEntry(g, kpd, k, d, i);
  }

  // ---------- facts the methods of Vmm need ----------

  lemma EmptyNotKernel(g: Graph, k: Kernel, d: nat, i: nat)
    requires LiveDir(g, k, d) && i < WORDS_PER_FRAME && !Ent(g.mem, d, i).p
    ensures !KDir(k, i)
  {
  }

  lemma DirKnown(g: Graph, g1: Graph, kpd: nat, k: Kernel, d: nat, i: nat, p: nat)
    requires Good(g1, kpd, k) && LiveDir(g, k, d) && Fresh(g, g1, d, i, p)
    ensures d in g1.client && d in g1.mem && IsTable(g1.mem, d)
  {
    hide Good;
    Known(g1, kpd, k);
  }

  lemma KernelSource(g: Graph, kpd: nat, k: Kernel, d: nat, i: nat)
    requires Good(g, kpd, k) && LiveDir(g, k, d) && i < WORDS_PER_FRAME
    requires Ent(g.mem, d, i).p && !Ent(g.mem, d, i).ng
    ensures SourceTable(g, k, Ent(g.mem, d, i).frame, i) && KDir(k, i) && Ent(g.mem, d, i).g
  {
    hide EntryOk, FrameOk, RefOk, LinkOk, LiveDir;
    DirEntry(g, kpd, k, d, i);
    assert KernelTable(g, k, i);
    assert KernelWord(k.dir[i]) && KernelTableOk(k.dir[i], k.tabs[i]);
  }

  lemma SharedSource(g: Graph, kpd: nat, k: Kernel, d: nat, i: nat, pa: nat, a: nat)
    requires Good(g, kpd, k) && LiveDir(g, k, d) && i < WORDS_PER_FRAME && InFlight(g, pa, a)
    requires Names(Ent(g.mem, d, i)) && !HasFlags(Ent(g.mem, d, i))
    ensures SourceTable(g, k, Ent(g.mem, d, i).frame, i) && !Ent(g.mem, d, i).rw && !Ent(g.mem, d, i).g
    ensures Hand(Ent(g.mem, d, i).frame) !in g.own
    ensures Ent(g.mem, d, i).frame in g.kind && g.kind[Ent(g.mem, d, i).frame].Tab?
  {
    hide Good, LiveDir;
    DirEntry(g, kpd, k, d, i);
    Known(g, kpd, k);
  }
}
