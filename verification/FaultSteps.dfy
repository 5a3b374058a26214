/** What a page fault means and what handling it achieves (vmm_pageFault, kernel/vmm.cc). */
module FaultSteps {
  import opened Frames
  import opened PhysMem
  import opened PageGraph
  import opened VmmSteps
  import opened DirSteps
  import opened ClearSteps
  import opened MapSteps
  import opened Mmu

  datatype Verdict = Resumed | Exited

  /** Page (i, j) of d can be written, no process sees a difference and nothing is left in flight. */
  ghost predicate Resolved(g: Graph, g': Graph, k: Kernel, d: nat, i: nat, j: nat) {
    && LiveDir(g', k, d) && SameView(g, g', d, d) && Elsewhere(g, g', d)
    && Writable(g'.mem, d, i, j) && NonSlotsKept(g, g')
  }

  /** The fault ends the process: a page may have been allocated and never mapped. */
  ghost predicate GivenUp(g: Graph, g': Graph, k: Kernel, d: nat) {
    && LiveDir(g', k, d) && SameView(g, g', d, d) && Elsewhere(g, g', d) && OnlyLeaks(g, g')
  }

  ghost predicate OnlyLeaks(g: Graph, g': Graph) {
    && (forall r: Ref :: !r.Slot? && !r.Leaked? ==>
        (r in g.own <==> r in g'.own) && (r in g.own ==> g'.own[r] == g.own[r]))
    && (forall r: Ref :: r.Leaked? && r in g.own ==> r in g'.own && g'.own[r] == g.own[r])
  }

  /** The page that was in flight is counted but nothing maps it. */
  ghost predicate HandLeaked(g: Graph, g': Graph, pa: nat) {
    && Hand(pa) !in g'.own && Leaked(pa) in g'.own && g'.own[Leaked(pa)] == pa
    && forall r: Ref :: !r.Slot? && r != Hand(pa) && r != Leaked(pa) ==>
      (r in g.own <==> r in g'.own) && (r in g.own ==> g'.own[r] == g.own[r])
  }

  /** The pages left behind so far. */
  ghost function Leaks(g: Graph): set<Ref> {
    set r | r in g.own && r.Leaked?
  }

  /** Exactly one page more is left behind, and nobody had it before. */
  ghost predicate OneLeak(g: Graph, g': Graph) {
    exists f :: f !in g.client && Leaked(f) !in Leaks(g) && Leaks(g') == Leaks(g) + {Leaked(f)}
  }

  /** A user program writes to a page that the kernel maps in the upper half. */
  ghost predicate LeakyAccess(k: Kernel, va: nat, acc: Access) {
    acc.user && acc.write && va >= USER_BASE && KMaps(k, Pdi(va), Pti(va))
  }

  // ---------- the two halves of map and map_copy ----------

  lemma OwnsInFlight(g: Graph, g': Graph, k: Kernel, d: nat, i: nat, j: nat, pa: nat, a: nat)
    requires Owns(g, g', k, d, i, pa) && InFlight(g, pa, a) && j < WORDS_PER_FRAME
    ensures InFlight(g', pa, a) && g'.mem[pa] == g.mem[pa] && LiveDir(g', k, d) && Private(g', d, i)
    ensures Leaf(g.mem, d, i, j) ==
      (if Ent(g'.mem, Ent(g'.mem, d, i).frame, j).p then Ent(g'.mem, Ent(g'.mem, d, i).frame, j) else ZERO_WORD)
  {
    hide LiveDir, SameView, Elsewhere;
    assert Leaf(g'.mem, d, i, j) == Leaf(g.mem, d, i, j);
  }

  lemma OwnsMapped(g: Graph, g1: Graph, g': Graph, k: Kernel, d: nat, i: nat, j: nat, pa: nat)
    requires Owns(g, g1, k, d, i, pa) && Mapped(g1, g', k, d, i, j, pa)
    ensures Mapped(g, g', k, d, i, j, pa)
  {
    hide SameView, Elsewhere, LiveDir, LeafSame, PageSafe, Private;
    SameViewTrans(g, g1, g', d);
    ElsewhereTrans(g, g1, g', d);
  }

  lemma FilledMapped(g: Graph, g1: Graph, g': Graph, k: Kernel, d: nat, i: nat, j: nat, pa: nat)
    requires SameView(g, g1, d, d) && Elsewhere(g, g1, d) && g1.own == g.own && Mapped(g1, g', k, d, i, j, pa)
    ensures Mapped(g, g', k, d, i, j, pa)
  {
    hide SameView, Elsewhere, LiveDir;
    SameViewTrans(g, g1, g', d);
    ElsewhereTrans(g, g1, g', d);
  }

  /** The terminate branch of map_copy leaves the fresh page counted and unmapped. */
  lemma LeakPage(g: Graph, kpd: nat, k: Kernel, d: nat, pa: nat, a: nat)
    requires Good(g, kpd, k) && InFlight(g, pa, a) && LiveDir(g, k, d)
    ensures var g' := Rename(g, pa, Leaked(pa));
            Good(g', kpd, k) && LiveDir(g', k, d) && SameView(g, g', d, d) && Elsewhere(g, g', d) &&
                HandLeaked(g, g', pa)
  {
    hide Wf, KernelThere;
    Closed(g, k);
    var g' := Rename(g, pa, Leaked(pa));
    RenameOk(g, k, pa, Leaked(pa));
    KernelKept(g, g', kpd, k);
  }

  lemma OwnsLeaked(g: Graph, g1: Graph, g': Graph, k: Kernel, d: nat, i: nat, pa: nat)
    requires Owns(g, g1, k, d, i, pa) && HandLeaked(g1, g', pa)
    requires SameView(g1, g', d, d) && Elsewhere(g1, g', d)
    ensures SameView(g, g', d, d) && Elsewhere(g, g', d) && HandLeaked(g, g', pa)
  {
    hide SameView, Elsewhere, LiveDir, LeafSame, PageSafe, Private;
    SameViewTrans(g, g1, g', d);
    ElsewhereTrans(g, g1, g', d);
  }

  // ---------- the page is allocated before the fault is handled ----------

  lemma AllocInFlight(g: Graph, g1: Graph, kpd: nat, k: Kernel, p: nat, a: nat, d: nat, i: nat)
    requires Good(g, kpd, k) && NoHands(g.own) && LiveDir(g, k, d) && Allocated(g, g1, p, Page, a)
    requires i < WORDS_PER_FRAME
    ensures LiveDir(g1, k, d) && SameView(g, g1, d, d) && Elsewhere(g, g1, d) && InFlight(g1, p, a)
    ensures LeafSame(g, g1, d, i)
  {
    hide Good, LiveDir, SameView, KDir;
    Known(g, kpd, k);
    LiveDirKnown(g, k, d);
    LiveDirKept(g, g1, k, d);
    AllocatedView(g, g1, kpd, k, p, a, d);
    AllocatedLeaf(g, g1, kpd, k, p, a, d, i);
    forall h | h in g.kind && g.kind[h].Dir? ensures SameView(g, g1, h, h) {
      AllocatedView(g, g1, kpd, k, p, a, h);
    }
  }

  lemma AllocatedView(g: Graph, g1: Graph, kpd: nat, k: Kernel, p: nat, a: nat, d: nat)
    requires Good(g, kpd, k) && Allocated(g, g1, p, Page, a) && d in g.kind && g.kind[d].Dir?
    ensures SameView(g, g1, d, d)
  {
    hide Good;
    Known(g, kpd, k);
    ContentKept(g.mem, g1.mem, d);
    forall n, m | 0 <= n < WORDS_PER_FRAME && 0 <= m < WORDS_PER_FRAME
      ensures View(g1.mem, d, n, m) == View(g.mem, d, n, m)
    {
      TabsKnown(g, kpd, k, d, n);
      if Names(Ent(g.mem, d, n)) {
        AllocatedTabView(g, g1, kpd, k, Ent(g.mem, d, n).frame, p, Page, a);
      }
    }
  }

  lemma AllocatedLeaf(g: Graph, g1: Graph, kpd: nat, k: Kernel, p: nat, a: nat, d: nat, i: nat)
    requires Good(g, kpd, k) && Allocated(g, g1, p, Page, a) && LiveDir(g, k, d) && i < WORDS_PER_FRAME
    ensures LeafSame(g, g1, d, i)
  {
    hide Wf, LiveDir;
    Known(g, kpd, k);
    LiveDirKnown(g, k, d);
    ContentKept(g.mem, g1.mem, d);
    DirEntry(g, kpd, k, d, i);
    TabsKnown(g, kpd, k, d, i);
    if Ent(g.mem, d, i).p {
      if !Names(Ent(g.mem, d, i)) {
        assert KernelTable(g, k, i);
      }
      ContentKept(g.mem, g1.mem, Ent(g.mem, d, i).frame);
    }
  }

  lemma AllocResolved(g: Graph, g1: Graph, g': Graph, k: Kernel, d: nat, i: nat, j: nat, p: nat, a: nat)
    requires NoHands(g.own) && Allocated(g, g1, p, Page, a) && SameView(g, g1, d, d) && Elsewhere(g, g1, d)
    requires Mapped(g1, g', k, d, i, j, p)
    ensures Resolved(g, g', k, d, i, j) && NoHands(g'.own) && Leaks(g') == Leaks(g)
  {
    hide SameView, Elsewhere, LiveDir;
    SameViewTrans(g, g1, g', d);
    ElsewhereTrans(g, g1, g', d);
  }

  lemma AllocGivenUp(g: Graph, g1: Graph, g': Graph, kpd: nat, k: Kernel, d: nat, p: nat, a: nat)
    requires Good(g, kpd, k) && NoHands(g.own) && Allocated(g, g1, p, Page, a) && SameView(g, g1, d, d)
    requires Elsewhere(g, g1, d)
    requires SameView(g1, g', d, d) && Elsewhere(g1, g', d) && LiveDir(g', k, d) && HandLeaked(g1, g', p)
    ensures GivenUp(g, g', k, d) && NoHands(g'.own) && OneLeak(g, g')
  {
    hide SameView, Elsewhere, LiveDir, Wf, KernelThere;
    Closed(g, k);
    assert Leaks(g') == Leaks(g) + {Leaked(p)};
    SameViewTrans(g, g1, g', d);
    ElsewhereTrans(g, g1, g', d);
  }

  lemma GivenUpRefl(g: Graph, k: Kernel, d: nat)
    requires LiveDir(g, k, d)
    ensures GivenUp(g, g, k, d)
  {
    hide LiveDir;
    ElsewhereRefl(g, d);
  }

  // ---------- what the error code says ----------

  /** A fault is a kernel page touched by a user, a write to a read-only private page, or nothing mapped. */
  lemma FaultMeaning(g: Graph, kpd: nat, k: Kernel, d: nat, i: nat, j: nat, acc: Access)
    requires Good(g, kpd, k) && LiveDir(g, k, d) && i < WORDS_PER_FRAME && j < WORDS_PER_FRAME
    requires Translate(g.mem, d, i, j, acc).Fault? && (acc.user || !KMaps(k, i, j))
    ensures var code, leaf := Translate(g.mem, d, i, j, acc).code, Leaf(g.mem, d, i, j);
            code == ErrorCode(code.p, acc.write, acc.user) &&
            if KMaps(k, i, j) then code.p && code.us && leaf.p && leaf.rw
            else if code.p then code.wr && leaf.p && !leaf.rw
            else !leaf.p
  {
    hide EntryOk, FrameOk, RefOk, LinkOk;
    DirEntry(g, kpd, k, d, i);
    KernelLeaf(g, kpd, k, i, j);
    KernelEntryFlags(k, i, j);
    if Names(Ent(g.mem, d, i)) {
      PrivateLeaf(g, kpd, k, d, i, j);
    }
  }

  /** The kernel itself reaches its own pages under every process's directory, for reading and writing. */
  lemma KernelAccess(g: Graph, kpd: nat, k: Kernel, d: nat, i: nat, j: nat, write: bool)
    requires Good(g, kpd, k) && LiveDir(g, k, d) && i < WORDS_PER_FRAME && j < WORDS_PER_FRAME && KMaps(k, i, j)
    ensures i < |k.tabs| && j < |k.tabs[i]|
    ensures Translate(g.mem, d, i, j, Access(write, false)) == Allowed(k.tabs[i][j].frame)
  {
    hide EntryOk, FrameOk, RefOk, LinkOk;
    DirEntry(g, kpd, k, d, i);
    KernelLeaf(g, kpd, k, i, j);
    KernelEntryFlags(k, i, j);
    if Names(Ent(g.mem, d, i)) {
      PrivateLeaf(g, kpd, k, d, i, j);
    }
  }

  /** A user access to a kernel page always faults. */
  lemma KernelPageFaults(g: Graph, kpd: nat, k: Kernel, d: nat, i: nat, j: nat, write: bool)
    requires Good(g, kpd, k) && LiveDir(g, k, d) && i < WORDS_PER_FRAME && j < WORDS_PER_FRAME && KMaps(k, i, j)
    ensures Translate(g.mem, d, i, j, Access(write, true)) == Fault(ErrorCode(true, write, true))
  {
    hide EntryOk, FrameOk, RefOk, LinkOk;
    DirEntry(g, kpd, k, d, i);
    KernelLeaf(g, kpd, k, i, j);
    KernelEntryFlags(k, i, j);
    if Names(Ent(g.mem, d, i)) {
      PrivateLeaf(g, kpd, k, d, i, j);
    }
  }

  /** Below a private directory entry: what kind of leaf there is. */
  lemma PrivateLeaf(g: Graph, kpd: nat, k: Kernel, d: nat, i: nat, j: nat)
    requires Good(g, kpd, k) && LiveDir(g, k, d) && i < WORDS_PER_FRAME && j < WORDS_PER_FRAME
    requires Names(Ent(g.mem, d, i))
    ensures var pde := Ent(g.mem, d, i);
            var pte := Ent(g.mem, pde.frame, j);
            && pde.us && (KMaps(k, i, j) ==> pte.p && pte == k.tabs[i][j] && pde.rw)
            && (!KMaps(k, i, j) && pte.p ==> Names(pte) && pte.us && (!pde.rw ==> !pte.rw))
  {
    hide FrameOk, RefOk, LinkOk, KernelOk, LiveDir;
    LiveDirKnown(g, k, d);
    DirEntry(g, kpd, k, d, i);
    TabsKnown(g, kpd, k, d, i);
    assert EntryOk(g, k, Ent(g.mem, d, i).frame, j);
  }

  lemma KernelEntryFlags(k: Kernel, i: nat, j: nat)
    requires KernelOk(k) && i < WORDS_PER_FRAME && j < WORDS_PER_FRAME
    ensures KDir(k, i) ==> k.dir[i].g && k.dir[i].rw && !k.dir[i].ng && !k.dir[i].us
    ensures KMaps(k, i, j) ==> k.tabs[i][j].g && k.tabs[i][j].rw && !k.tabs[i][j].ng && !k.tabs[i][j].us
  {
    assert KernelWord(k.dir[i]) && KernelTableOk(k.dir[i], k.tabs[i]);
    assert KernelWord(k.tabs[i][j]);
  }

  /** Once a page is writable the hardware lets the access through. */
  lemma WritableAllowed(mem: Memory, d: nat, i: nat, j: nat, acc: Access)
    requires Writable(mem, d, i, j)
    ensures Translate(mem, d, i, j, acc) == Allowed(Ent(mem, Ent(mem, d, i).frame, j).frame)
  {
  }

  // ---------- facts the methods of Vmm need ----------

  lemma LeafAt(g: Graph, g': Graph, d: nat, i: nat, j: nat)
    requires LeafSame(g, g', d, i) && j < WORDS_PER_FRAME
    ensures Leaf(g'.mem, d, i, j) == Leaf(g.mem, d, i, j)
  {
  }

  lemma ZeroAfter(g: Graph, g': Graph, p: nat, kd: Kind, a: nat)
    requires Allocated(g, g', p, kd, a)
    ensures p in g'.mem && g'.mem[p] == ZeroFrame()
  {
  }

  /** A present read-only entry is private: the kernel's are writable. */
  lemma ReadOnlyPrivate(g: Graph, kpd: nat, k: Kernel, t: nat, j: nat)
    requires Good(g, kpd, k) && t in g.kind && g.kind[t].Tab? && j < WORDS_PER_FRAME
    requires Ent(g.mem, t, j).p && !Ent(g.mem, t, j).rw
    ensures Names(Ent(g.mem, t, j))
  {
    hide FrameOk, RefOk, LinkOk;
    Closed(g, k);
    assert EntryOk(g, k, t, j);
    if KMaps(k, g.at[t], j) {
      KernelEntryFlags(k, g.at[t], j);
    }
  }

  lemma PageToCopy(g: Graph, kpd: nat, k: Kernel, d: nat, i: nat, t: nat, j: nat, pa: nat, a: nat)
    requires Good(g, kpd, k) && LiveDir(g, k, d) && Private(g, d, i) && t == Ent(g.mem, d, i).frame
    requires j < WORDS_PER_FRAME && Names(Ent(g.mem, t, j)) && InFlight(g, pa, a)
    ensures var f := Ent(g.mem, t, j).frame;
            IsTable(g.mem, t) && IsTable(g.mem, f) && f != pa && pa in g.client && t != pa && d != pa
  {
    hide Good, LiveDir;
    LiveDirKnown(g, k, d);
    TabsKnown(g, kpd, k, d, i);
    PageBelow(g, kpd, k, t, j);
    Known(g, kpd, k);
    NotInFlight(g, kpd, k, t, j, pa, a);
  }

  lemma PageToDrop(g: Graph, kpd: nat, k: Kernel, d: nat, i: nat, t: nat, j: nat, pa: nat, a: nat)
    requires Good(g, kpd, k) && LiveDir(g, k, d) && Private(g, d, i) && t == Ent(g.mem, d, i).frame
    requires j < WORDS_PER_FRAME && Names(Ent(g.mem, t, j)) && InFlight(g, pa, a)
    ensures var f := Ent(g.mem, t, j).frame;
            && IsTable(g.mem, t) && Good(Take(g, t, j), kpd, k) && f in g.kind && g.kind[f].Page? && f != t
            && t in g.client && Hand(f) !in g.own && f in g.mem && PageOf(g.mem, Ent(g.mem, t, j)) == g.mem[f]
  {
    hide Good, LiveDir;
    LiveDirKnown(g, k, d);
    TabsKnown(g, kpd, k, d, i);
    PageBelow(g, kpd, k, t, j);
    NotInFlight(g, kpd, k, t, j, pa, a);
    PageTakeable(g, kpd, k, t, j);
    GoodTake(g, kpd, k, t, j);
    Known(g, kpd, k);
  }

  lemma PageTakeable(g: Graph, kpd: nat, k: Kernel, t: nat, j: nat)
    requires Good(g, kpd, k) && t in g.kind && g.kind[t].Tab? && j < WORDS_PER_FRAME && Names(Ent(g.mem, t, j))
    requires Hand(Ent(g.mem, t, j).frame) !in g.own
    ensures Takeable(g, k, t, j)
  {
    hide Wf;
    TabEntryFree(g, k, t, j);
  }
}
