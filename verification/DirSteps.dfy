/** Copying a page directory (copy_pd, kernel/vmm.cc): which entries are shared and which are copied. */
module DirSteps {
  import opened Frames
  import opened PageGraph
  import opened VmmSteps

  /** e' is the copy of directory entry e: the table of a writable private entry is copied. */
  ghost predicate CopiedDirWord(g: Graph, g': Graph, x: nat, e: Word, e': Word) {
    if !e.p then e' == ZERO_WORD
    else if Names(e) && e.rw then
      && e' == e.(frame := e'.frame) && e'.frame !in g.kind && e'.frame in g'.kind && g'.kind[e'.frame].Tab?
      && e'.frame != x && SameTabView(g, g', e.frame, e'.frame)
    else e' == e
  }

  ghost predicate FilledDir(g: Graph, g': Graph, x: nat, i: nat, e: Word) {
    && Grows(g, g', x)
    && CopiedDirWord(g, g', x, e, Ent(g'.mem, x, i))
    && forall j :: j != i ==> Ent(g'.mem, x, j) == Ent(g.mem, x, j)
  }

  /** d is a live process's directory, complete with the kernel's entries. */
  ghost predicate LiveDir(g: Graph, k: Kernel, d: nat) {
    && d in g.kind && g.kind[d].Dir? && IsTable(g.mem, d)
    && forall i :: 0 <= i < WORDS_PER_FRAME && KDir(k, i) ==> Ent(g.mem, d, i).p
  }

  lemma DirEntry(g: Graph, kpd: nat, k: Kernel, d: nat, i: nat)
    requires Good(g, kpd, k) && LiveDir(g, k, d) && i < WORDS_PER_FRAME
    ensures var e := Ent(g.mem, d, i);
            && (e.p && !e.ng ==> KDir(k, i) && e == k.dir[i])
            && (Names(e) ==> DirSlot(g, k, d, i))
  {
    hide KernelThere, KernelOk;
    NamedSlot(g, k, d, i);
    Known(g, kpd, k);
    assert EntryOk(g, k, d, i);
    if Names(Ent(g.mem, d, i)) {
      NamedFrame(g, k, Slot(d, i));
      assert RefOk(g, Slot(d, i)) && LinkOk(g, k, Slot(d, i));
    }
  }

  /** What the invariant says of a private directory entry. */
  ghost predicate DirSlot(g: Graph, k: Kernel, d: nat, i: nat) {
    var e := Ent(g.mem, d, i);
    && e.us && (e.g <==> KDir(k, i)) && (e.g ==> e.rw)
    && e.frame in g.kind && g.kind[e.frame].Tab? && e.frame in g.at && g.at[e.frame] == i
    && e.frame in g.client && g.client[e.frame].Counted? && e.frame in g.mem
    && HasKernelEntries(g.mem, k, e.frame, i)
    && (!e.rw ==> NothingWritable(g.mem, e.frame))
    && Slot(d, i) in g.own && g.own[Slot(d, i)] == e.frame
    && (e.rw ==> Sole(g.own, e.frame, Slot(d, i)))
  }

  lemma FillDirGlobal(g: Graph, kpd: nat, k: Kernel, d: nat, t: nat, i: nat)
    requires Good(g, kpd, k) && LiveDir(g, k, d) && d != t && i < WORDS_PER_FRAME
    requires Building(g, t, Dir, 0) && !Ent(g.mem, t, i).p
    requires Ent(g.mem, d, i).p && !Ent(g.mem, d, i).ng
    ensures var e := Ent(g.mem, d, i);
            var g' := Rewrite(g, t, i, e);
            Good(g', kpd, k) && Building(g', t, Dir, 0) && FilledDir(g, g', t, i, e)
  {
    hide Wf, KernelThere, KMaps, KDir, LiveDir;
    DirEntry(g, kpd, k, d, i);
    var e := Ent(g.mem, d, i);
    Known(g, kpd, k);
    CopyGlobalOk(g, k, t, i);
    SetEntOne(g.mem, t, i, e);
    KernelKept(g, Rewrite(g, t, i, e), kpd, k);
  }

  lemma FillDirShared(g: Graph, g': Graph, kpd: nat, k: Kernel, d: nat, t: nat, i: nat)
    requires Good(g, kpd, k) && LiveDir(g, k, d) && d != t && i < WORDS_PER_FRAME
    requires Building(g, t, Dir, 0) && !Ent(g.mem, t, i).p
    requires Names(Ent(g.mem, d, i)) && !Ent(g.mem, d, i).rw && SharedInto(g, g', t, i, Ent(g.mem, d, i))
    ensures Good(g', kpd, k) && Building(g', t, Dir, 0) && FilledDir(g, g', t, i, Ent(g.mem, d, i))
  {
    hide Wf, KernelThere, KMaps, KDir, HasKernelEntries, NothingWritable, LiveDir, HandsKept, Grows;
    var e := Ent(g.mem, d, i);
    DirEntry(g, kpd, k, d, i);
    Known(g, kpd, k);
    NamedSlot(g, k, t, i);
    LiveDirKnown(g, k, d);
    ShareOk(g, k, d, t, i);
    SetEntOne(g.mem, t, i, e);
    SharedHeld(g, g', t, i, e);
    Agree(g, Share(g, t, i, e), g', kpd, k);
    HandsAdd(g, g', Slot(t, i), e.frame, Slot(d, i));
    SharedGrows(g, g', t, i, e);
  }

  lemma LiveDirKnown(g: Graph, k: Kernel, d: nat)
    requires LiveDir(g, k, d)
    ensures d in g.kind && g.kind[d].Dir? && IsTable(g.mem, d)
  {
  }

  lemma FillDirCopied(g: Graph, g1: Graph, kpd: nat, k: Kernel, d: nat, t: nat, i: nat, p: nat)
    requires Good(g, kpd, k) && Good(g1, kpd, k) && LiveDir(g, k, d) && d != t && i < WORDS_PER_FRAME
    requires Building(g, t, Dir, 0) && !Ent(g.mem, t, i).p
    requires Names(Ent(g.mem, d, i)) && Ent(g.mem, d, i).rw
    requires TableCopied(g, g1, Ent(g.mem, d, i).frame, p, i)
    ensures IsTable(g1.mem, t)
    ensures var e := Ent(g.mem, d, i);
            var g' := Put(g1, t, i, e.(frame := p));
            Good(g', kpd, k) && Building(g', t, Dir, 0) && FilledDir(g, g', t, i, e)
  {
    hide Good, KMaps, KDir, TableCopied, FilledDir, Building, Putable, LiveDir, DirSlot;
    var e := Ent(g.mem, d, i);
    DirEntry(g, kpd, k, d, i);
    CopiedDirPutable(g, g1, kpd, k, d, t, i, p, e);
    Known(g1, kpd, k);
    GoodPut(g1, kpd, k, t, i, e.(frame := p));
    CopiedDirBuilding(g, g1, kpd, k, t, i, p, e);
    CopiedDirFilled(g, g1, kpd, k, d, t, i, p, e);
  }

  lemma CopiedDirPutable(g: Graph, g1: Graph, kpd: nat, k: Kernel, d: nat, t: nat, i: nat, p: nat, e: Word)
    requires Good(g, kpd, k) && Good(g1, kpd, k) && i < WORDS_PER_FRAME
    requires Building(g, t, Dir, 0) && !Ent(g.mem, t, i).p
    requires e == Ent(g.mem, d, i) && Names(e) && e.rw && DirSlot(g, k, d, i)
    requires TableCopied(g, g1, e.frame, p, i)
    ensures Putable(g1, k, t, i, e.(frame := p)) && t in g.mem && t in g1.mem && g1.mem[t] == g.mem[t]
  {
    hide Good, KMaps, KDir, NothingWritable;
    Known(g, kpd, k);
    Known(g1, kpd, k);
    ContentKept(g.mem, g1.mem, t);
    forall j | 0 <= j < WORDS_PER_FRAME && KMaps(k, i, j) ensures Ent(g1.mem, p, j).p {
      assert CopiedWord(g, g1, p, Ent(g.mem, e.frame, j), Ent(g1.mem, p, j));
    }
  }

  /** Table entries never refer to a directory. */
  lemma SlotsNameNoDir(g: Graph, kpd: nat, k: Kernel)
    requires Good(g, kpd, k)
    ensures forall r :: r in g.own && r.Slot? ==>
        g.own[r] in g.kind && (g.kind[g.own[r]].Tab? || g.kind[g.own[r]].Page?)
  {
    hide EntryOk, LinkOk, FrameOk, KernelOk, KernelThere;
    forall r | r in g.own && r.Slot?
      ensures g.own[r] in g.kind && (g.kind[g.own[r]].Tab? || g.kind[g.own[r]].Page?)
    {
      assert RefOk(g, r);
    }
  }

  lemma CopiedDirBuilding(g: Graph, g1: Graph, kpd: nat, k: Kernel, t: nat, i: nat, p: nat, e: Word)
    requires Good(g1, kpd, k) && i < WORDS_PER_FRAME && Building(g, t, Dir, 0)
    requires TableCopied(g, g1, e.frame, p, i) && t in g.mem && t in g1.mem && g1.mem[t] == g.mem[t]
    ensures Building(Put(g1, t, i, e.(frame := p)), t, Dir, 0)
  {
    hide Good, CopiedWord;
    SlotsNameNoDir(g1, kpd, k);
  }

  lemma CopiedDirFilled(g: Graph, g1: Graph, kpd: nat, k: Kernel, d: nat, t: nat, i: nat, p: nat, e: Word)
    requires Good(g, kpd, k) && Good(g1, kpd, k) && i < WORDS_PER_FRAME && Building(g, t, Dir, 0)
    requires t in g.mem && t in g1.mem && g1.mem[t] == g.mem[t] && !Ent(g.mem, t, i).p
    requires e == Ent(g.mem, d, i) && Names(e) && e.rw && DirSlot(g, k, d, i)
    requires TableCopied(g, g1, e.frame, p, i) && IsTable(g1.mem, t)
    ensures FilledDir(g, Put(g1, t, i, e.(frame := p)), t, i, e)
  {
    hide Good, CopiedWord, SameTabView, KDir, HasKernelEntries, NothingWritable, IsTable, Ent, SetEnt, TableCopied;
    var g' := Put(g1, t, i, e.(frame := p));
    CopiedDirGrows(g, g1, kpd, k, t, i, p, e);
    ContentKept(g.mem, g1.mem, t);
    SetEntOne(g1.mem, t, i, e.(frame := p));
    CopiedDirView(g, g1, kpd, k, t, i, p, e);
    CopiedDirKind(g, g1, e.frame, t, p, i);
  }

  lemma CopiedDirKind(g: Graph, g1: Graph, s: nat, t: nat, p: nat, i: nat)
    requires TableCopied(g, g1, s, p, i) && t in g.kind
    ensures p !in g.kind && p in g1.kind && g1.kind[p].Tab? && p != t
  {
  }

  /** After copying a table, the directory being filled is still a counted frame. */
  lemma CopiedDirOwned(g: Graph, g1: Graph, kpd: nat, k: Kernel, s: nat, t: nat, p: nat, i: nat)
    requires Good(g1, kpd, k) && TableCopied(g, g1, s, p, i) && t in g.kind
    ensures t in g1.client && t in g1.mem
  {
    hide Good, CopiedWord;
    Known(g1, kpd, k);
  }

  lemma CopiedDirGrows(g: Graph, g1: Graph, kpd: nat, k: Kernel, t: nat, i: nat, p: nat, e: Word)
    requires Good(g, kpd, k) && i < WORDS_PER_FRAME && Building(g, t, Dir, 0) && !Ent(g.mem, t, i).p
    requires TableCopied(g, g1, e.frame, p, i) && t in g1.mem && IsTable(g1.mem, t)
    ensures Grows(g, Put(g1, t, i, e.(frame := p)), t)
  {
    hide Wf, KernelThere, CopiedWord, IsTable, Ent, HandsKept, StaysSettled;
    Known(g, kpd, k);
    NamedSlot(g, k, t, i);
    SetEntOne(g1.mem, t, i, e.(frame := p));
    CopiedDirHands(g, g1, Put(g1, t, i, e.(frame := p)), t, i, p);
  }

  lemma CopiedDirHands(g: Graph, g1: Graph, g': Graph, t: nat, i: nat, p: nat)
    requires HandsKept(g, g1) && StaysSettled(g, g1) && p !in g.kind
    requires g'.own == (g1.own - {Hand(p)})[Slot(t, i) := p] && g'.kind == g1.kind
    ensures HandsKept(g, g') && StaysSettled(g, g')
  {
    forall f | f in g.kind && Sole(g.own, f, Hand(f)) ensures Sole(g'.own, f, Hand(f)) {
      assert Sole(g1.own, f, Hand(f));
    }
  }

  lemma CopiedDirView(g: Graph, g1: Graph, kpd: nat, k: Kernel, t: nat, i: nat, p: nat, e: Word)
    requires Good(g, kpd, k) && Good(g1, kpd, k) && i < WORDS_PER_FRAME && Building(g, t, Dir, 0)
    requires t in g1.mem && IsTable(g1.mem, t)
    requires e.frame in g.kind && g.kind[e.frame].Tab? && TableCopied(g, g1, e.frame, p, i)
    ensures SameTabView(g, Put(g1, t, i, e.(frame := p)), e.frame, p)
  {
    hide Good, CopiedWord, Grown;
    var g' := Put(g1, t, i, e.(frame := p));
    CopiedTableView(g, g1, kpd, k, e.frame, p, i);
    CopiedDirKind(g, g1, e.frame, t, p, i);
    GrownKind(g, g1, p, t);
    forall j | 0 <= j < WORDS_PER_FRAME ensures TabPage(g'.mem, p, j) == TabPage(g1.mem, p, j) {
      PagesKnown(g1, kpd, k, p, j);
    }
  }

  lemma GrownKind(g: Graph, g': Graph, x: nat, t: nat)
    requires Grown(g, g', x) && t in g.kind
    ensures t in g'.kind && g'.kind[t] == g.kind[t]
  {
  }

  // ---------- a whole directory ----------

  ghost predicate PrefixDir(g0: Graph, g: Graph, d: nat, t: nat, n: nat) {
    && (forall i :: 0 <= i < n ==> CopiedDirWord(g0, g, t, Ent(g0.mem, d, i), Ent(g.mem, t, i)))
    && (forall i :: n <= i < WORDS_PER_FRAME ==> Ent(g.mem, t, i) == ZERO_WORD)
  }

  ghost predicate DirCopied(g: Graph, g': Graph, d: nat, t: nat) {
    && Grown(g, g', t) && Building(g', t, Dir, 0)
    && forall i :: 0 <= i < WORDS_PER_FRAME ==> CopiedDirWord(g, g', t, Ent(g.mem, d, i), Ent(g'.mem, t, i))
  }

  lemma PrefixDirEmpty(g0: Graph, g: Graph, d: nat, t: nat, n: nat)
    requires PrefixDir(g0, g, d, t, n) && n < WORDS_PER_FRAME
    ensures Ent(g.mem, t, n) == ZERO_WORD
  {
  }

  lemma LiveDirKept(g: Graph, g': Graph, k: Kernel, d: nat)
    requires LiveDir(g, k, d) && SameTable(g, g', d) && d in g.mem && d in g'.mem && g'.mem[d] == g.mem[d]
    ensures LiveDir(g', k, d)
  {
  }

  lemma CopyPdStart(g: Graph, g': Graph, kpd: nat, k: Kernel, d: nat, t: nat)
    requires Good(g, kpd, k) && LiveDir(g, k, d) && Allocated(g, g', t, Dir, 0)
    ensures Grows(g', g', t) && Building(g', t, Dir, 0) && LiveDir(g', k, d) && d != t
    ensures PrefixDir(g', g', d, t, 0)
  {
    hide Good, KDir, LiveDir, Grows;
    Known(g, kpd, k);
    GrowsRefl(g', t);
    LiveDirKnown(g, k, d);
    LiveDirKept(g, g', k, d);
  }

  lemma CopyPdRound(g0: Graph, g: Graph, g': Graph, kpd: nat, k: Kernel, d: nat, t: nat, i: nat)
    requires Good(g0, kpd, k) && Good(g, kpd, k) && Building(g0, t, Dir, 0) && Building(g, t, Dir, 0) && d != t
    requires Grows(g0, g, t) && PrefixDir(g0, g, d, t, i) && i < WORDS_PER_FRAME
    requires LiveDir(g0, k, d) && LiveDir(g, k, d)
    requires FilledDir(g, g', t, i, Ent(g.mem, d, i))
    ensures Grows(g0, g', t) && PrefixDir(g0, g', d, t, i + 1) && LiveDir(g', k, d)
  {
    hide Good, KDir, LiveDir, SameTabView, DirSlot, Grows;
    GrowsTrans(g0, g, g', t);
    LiveDirKnown(g0, k, d);
    GrowsDir(g0, g, kpd, k, d, t);
    GrowsDir(g, g', kpd, k, d, t);
    LiveDirKept(g, g', k, d);
    forall j | 0 <= j < i + 1 ensures CopiedDirWord(g0, g', t, Ent(g0.mem, d, j), Ent(g'.mem, t, j)) {
      if j < i {
        assert CopiedDirWord(g0, g, t, Ent(g0.mem, d, j), Ent(g.mem, t, j));
        CopiedDirStays(g0, g, g', kpd, k, t, Ent(g0.mem, d, j), Ent(g.mem, t, j));
      } else {
        DirEntry(g0, kpd, k, d, i);
        DirSlotTab(g0, k, d, i);
        CopiedDirNew(g0, g, g', kpd, k, t, Ent(g.mem, d, i), Ent(g'.mem, t, i));
      }
    }
  }

  lemma DirSlotTab(g: Graph, k: Kernel, d: nat, i: nat)
    ensures DirSlot(g, k, d, i) ==>
      var f := Ent(g.mem, d, i).frame; f in g.kind && g.kind[f].Tab?
  {
  }

  lemma GrowsDir(g: Graph, g': Graph, kpd: nat, k: Kernel, d: nat, t: nat)
    requires Good(g, kpd, k) && Grows(g, g', t) && d in g.kind && d != t
    ensures SameTable(g, g', d) && d in g.mem && d in g'.mem && g'.mem[d] == g.mem[d]
    ensures forall i :: Ent(g'.mem, d, i) == Ent(g.mem, d, i)
  {
    hide Good;
    Known(g, kpd, k);
  }

  lemma CopiedDirStays(g0: Graph, g: Graph, g': Graph, kpd: nat, k: Kernel, t: nat, e: Word, e': Word)
    requires Good(g, kpd, k) && Grows(g, g', t) && t in g.kind && g.kind[t].Dir?
    requires CopiedDirWord(g0, g, t, e, e')
    ensures CopiedDirWord(g0, g', t, e, e')
  {
    hide Good;
    if e.p && Names(e) && e.rw {
      TabViewKept(g, g', kpd, k, e'.frame, t);
    }
  }

  lemma CopiedDirNew(g0: Graph, g: Graph, g': Graph, kpd: nat, k: Kernel, t: nat, e: Word, e': Word)
    requires Good(g0, kpd, k) && Grows(g0, g, t) && t in g0.kind && g0.kind[t].Dir?
    requires Names(e) ==> e.frame in g0.kind && g0.kind[e.frame].Tab?
    requires CopiedDirWord(g, g', t, e, e')
    ensures CopiedDirWord(g0, g', t, e, e')
  {
    hide Good;
    if e.p && Names(e) && e.rw {
      TabViewKept(g0, g, kpd, k, e.frame, t);
    }
  }

  lemma CopyPdEnd(g: Graph, g0: Graph, g': Graph, kpd: nat, k: Kernel, d: nat, t: nat)
    requires Good(g, kpd, k) && LiveDir(g, k, d) && Allocated(g, g0, t, Dir, 0)
    requires Grows(g0, g', t) && PrefixDir(g0, g', d, t, WORDS_PER_FRAME) && Building(g', t, Dir, 0)
    ensures DirCopied(g, g', d, t)
  {
    hide Good, KDir, Grown, Building, Grows, CopiedDirWord, LiveDir;
    GrownFrom(g, g0, g', kpd, k, t, Dir, 0);
    LiveDirKnown(g, k, d);
    forall i | 0 <= i < WORDS_PER_FRAME ensures CopiedDirWord(g, g', t, Ent(g.mem, d, i), Ent(g'.mem, t, i)) {
      CopyPdEndWord(g, g0, g', kpd, k, d, t, i);
    }
  }

  lemma CopyPdEndWord(g: Graph, g0: Graph, g': Graph, kpd: nat, k: Kernel, d: nat, t: nat, i: nat)
    requires Good(g, kpd, k) && LiveDir(g, k, d) && Allocated(g, g0, t, Dir, 0) && i < WORDS_PER_FRAME
    requires CopiedDirWord(g0, g', t, Ent(g0.mem, d, i), Ent(g'.mem, t, i))
    ensures CopiedDirWord(g, g', t, Ent(g.mem, d, i), Ent(g'.mem, t, i))
  {
    hide Good, KDir;
    Known(g, kpd, k);
    DirEntry(g, kpd, k, d, i);
    var f := Ent(g.mem, d, i).frame;
    if Names(Ent(g.mem, d, i)) && Ent(g.mem, d, i).rw {
      AllocatedTabView(g, g0, kpd, k, f, t, Dir, 0);
    }
  }

  lemma AllocatedTabView(g: Graph, g': Graph, kpd: nat, k: Kernel, f: nat, t: nat, kd: Kind, a: nat)
    requires Good(g, kpd, k) && Allocated(g, g', t, kd, a) && f in g.kind && g.kind[f].Tab?
    ensures SameTabView(g, g', f, f)
  {
    hide Good;
    Known(g, kpd, k);
    ContentKept(g.mem, g'.mem, f);
    forall j | 0 <= j < WORDS_PER_FRAME ensures TabPage(g'.mem, f, j) == TabPage(g.mem, f, j) {
      PagesKnown(g, kpd, k, f, j);
    }
  }

  /** The copy of a directory is complete and shows what the original shows. */
  lemma DirCopiedView(g: Graph, g': Graph, kpd: nat, k: Kernel, d: nat, t: nat)
    requires Good(g, kpd, k) && Good(g', kpd, k) && LiveDir(g, k, d) && DirCopied(g, g', d, t)
    ensures LiveDir(g', k, t) && SameView(g, g', d, t)
  {
    hide Good, KDir, Grown;
    forall i, j | 0 <= i < WORDS_PER_FRAME && 0 <= j < WORDS_PER_FRAME
      ensures View(g'.mem, t, i, j) == View(g.mem, d, i, j)
    {
      assert CopiedDirWord(g, g', t, Ent(g.mem, d, i), Ent(g'.mem, t, i));
      DirEntry(g, kpd, k, d, i);
      if Names(Ent(g.mem, d, i)) && !Ent(g.mem, d, i).rw {
        TabViewGrown(g, g', kpd, k, Ent(g.mem, d, i).frame, t);
      }
    }
    forall i | 0 <= i < WORDS_PER_FRAME && KDir(k, i) ensures Ent(g'.mem, t, i).p {
      assert CopiedDirWord(g, g', t, Ent(g.mem, d, i), Ent(g'.mem, t, i));
    }
  }

  lemma TabViewGrown(g: Graph, g': Graph, kpd: nat, k: Kernel, f: nat, x: nat)
    requires Good(g, kpd, k) && Grown(g, g', x) && f in g.kind && g.kind[f].Tab?
    ensures SameTabView(g, g', f, f)
  {
    hide Good;
    ContentKept(g.mem, g'.mem, f);
    forall j | 0 <= j < WORDS_PER_FRAME ensures TabPage(g'.mem, f, j) == TabPage(g.mem, f, j) {
      PagesKnown(g, kpd, k, f, j);
    }
  }
}
