/** Emptying an address space for exec (clear_pt and clear_pd, kernel/vmm.cc). */
module ClearSteps {
  import opened Frames
  import opened PhysMem
  import opened PageGraph
  import opened VmmSteps
  import opened DirSteps
  import opened DropSteps

  /** Processes, local variables and leaked frames refer to what they referred to. */
  ghost predicate NonSlotsKept(g: Graph, g': Graph) {
    forall r: Ref :: !r.Slot? ==> (r in g.own <==> r in g'.own) && (r in g.own ==> g'.own[r] == g.own[r])
  }

  /** Every directory other than x shows what it showed. */
  ghost predicate OthersSame(g: Graph, g': Graph, x: nat) {
    forall d :: d in g.kind && g.kind[d].Dir? && d != x && d in g'.kind && g'.kind[d].Dir? ==> SameView(g, g', d, d)
  }

  ghost predicate DirsStay(g: Graph, g': Graph) {
    && (forall d :: d in g.kind && g.kind[d].Dir? ==> d in g'.kind && g'.kind[d].Dir?)
    && StaysSettled(g, g')
  }

  /** An operation on the address space d leaves the others alone. */
  ghost predicate Local(g: Graph, g': Graph, d: nat) {
    NonSlotsKept(g, g') && OthersSame(g, g', d) && DirsStay(g, g')
  }

  lemma LocalTrans(g0: Graph, g1: Graph, g2: Graph, d: nat)
    requires Local(g0, g1, d) && Local(g1, g2, d)
    ensures Local(g0, g2, d)
  {
    hide SameView;
    forall h | h in g0.kind && g0.kind[h].Dir? && h != d && h in g2.kind && g2.kind[h].Dir?
      ensures SameView(g0, g2, h, h)
    {
      SameViewTrans(g0, g1, g2, h);
    }
  }

  lemma SameViewTrans(g0: Graph, g1: Graph, g2: Graph, d: nat)
    requires SameView(g0, g1, d, d) && SameView(g1, g2, d, d)
    ensures SameView(g0, g2, d, d)
  {
  }

  lemma LocalRefl(g: Graph, d: nat)
    ensures Local(g, g, d)
  {
  }

  /** Frames may be gone and x may have been edited; everything else is unchanged. */
  ghost predicate Edits(g: Graph, g': Graph, x: nat) {
    forall f :: f in g'.kind && f != x ==> SameTable(g, g', f) && f in g.mem && f in g'.mem && g'.mem[f] == g.mem[f]
  }

  /** A directory that does not reach x is not affected by an edit of x. */
  lemma EditView(g: Graph, g': Graph, kpd: nat, k: Kernel, x: nat, d: nat)
    requires Good(g', kpd, k) && Edits(g, g', x) && d in g'.kind && g'.kind[d].Dir? && d != x
    requires x in g'.kind ==> !g'.kind[x].Page?
    requires forall i :: 0 <= i < WORDS_PER_FRAME && Names(Ent(g'.mem, d, i)) ==> Ent(g'.mem, d, i).frame != x
    ensures SameView(g, g', d, d)
  {
    hide Good;
    ContentKept(g.mem, g'.mem, d);
    forall i, j | 0 <= i < WORDS_PER_FRAME && 0 <= j < WORDS_PER_FRAME
      ensures View(g'.mem, d, i, j) == View(g.mem, d, i, j)
    {
      TabsKnown(g', kpd, k, d, i);
      if Names(Ent(g'.mem, d, i)) {
        var t := Ent(g'.mem, d, i).frame;
        ContentKept(g.mem, g'.mem, t);
        PagesKnown(g', kpd, k, t, j);
      }
    }
  }

  /** Table t belongs to directory d alone. */
  ghost predicate Private(g: Graph, d: nat, i: nat) {
    && i < WORDS_PER_FRAME && Names(Ent(g.mem, d, i)) && Ent(g.mem, d, i).rw
  }

  lemma PrivateOthers(g: Graph, kpd: nat, k: Kernel, d: nat, i: nat)
    requires Good(g, kpd, k) && d in g.kind && g.kind[d].Dir? && Private(g, d, i)
    ensures forall h, n ::
      h in g.kind && g.kind[h].Dir? && 0 <= n < WORDS_PER_FRAME && (h != d || n != i) && Names(Ent(g.mem, h, n)) ==>
        Ent(g.mem, h, n).frame != Ent(g.mem, d, i).frame
  {
    hide Wf;
    AllNamed(g, k);
    SoleEntry(g, k, d, i);
  }

  /** Edits of a private table, or of the directory itself, are local. */
  lemma EditLocal(g: Graph, g': Graph, kpd: nat, k: Kernel, d: nat, i: nat, x: nat)
    requires Good(g', kpd, k) && Edits(g, g', x) && NonSlotsKept(g, g') && DirsStay(g, g')
    requires d in g'.kind && g'.kind[d].Dir?
    requires x == d || (Private(g', d, i) && x == Ent(g'.mem, d, i).frame)
    ensures Local(g, g', d)
  {
    hide Good, SameView;
    if x != d {
      PrivateOthers(g', kpd, k, d, i);
      TabsKnown(g', kpd, k, d, i);
    }
    forall h | h in g.kind && g.kind[h].Dir? && h != d && h in g'.kind && g'.kind[h].Dir?
      ensures SameView(g, g', h, h)
    {
      if x == d {
        NoDirBelow(g', kpd, k, h, d);
      }
      EditView(g, g', kpd, k, x, h);
    }
  }

  lemma NoDirBelow(g: Graph, kpd: nat, k: Kernel, h: nat, d: nat)
    requires Good(g, kpd, k) && h in g.kind && g.kind[h].Dir? && d in g.kind && g.kind[d].Dir?
    ensures forall i :: 0 <= i < WORDS_PER_FRAME && Names(Ent(g.mem, h, i)) ==> Ent(g.mem, h, i).frame != d
  {
    hide Good;
    forall i | 0 <= i < WORDS_PER_FRAME && Names(Ent(g.mem, h, i)) ensures Ent(g.mem, h, i).frame != d {
      TabsKnown(g, kpd, k, h, i);
    }
  }

  // ---------- clear_pt ----------

  /** decref of a page followed by clearing the entry that named it. */
  lemma ClearEntryStep(g: Graph, g': Graph, kpd: nat, k: Kernel, t: nat, i: nat)
    requires Good(g, kpd, k) && t in g.kind && g.kind[t].Tab? && i < WORDS_PER_FRAME && Names(Ent(g.mem, t, i))
    requires IsTable(g.mem, t) && Hand(Ent(g.mem, t, i).frame) !in g.own
    requires var f := Ent(g.mem, t, i).frame;
             && g'.client == DropClient(g.client, f) && g'.own == g.own - {Slot(t, i)} && g'.at == g.at
             && g'.kind == (if CountOf(g.client, f) == 1 then g.kind - {f} else g.kind)
             && MemKept(Rewrite(g, t, i, ZERO_WORD), g')
    ensures Good(g', kpd, k) && Edits(g, g', t) && NonSlotsKept(g, g') && DirsStay(g, g')
    ensures t in g'.kind && g'.kind[t].Tab? && IsTable(g'.mem, t)
    ensures g'.mem[t] == SetEnt(g.mem, t, i, ZERO_WORD)[t]
  {
    hide Wf, Good, KernelThere, KMaps, HeldKept;
    Known(g, kpd, k);
    PagesKnown(g, kpd, k, t, i);
    SetEntOne(g.mem, t, i, ZERO_WORD);
    ClearEntryGood(g, g', kpd, k, t, i);
  }

  lemma ClearEntryGood(g: Graph, g': Graph, kpd: nat, k: Kernel, t: nat, i: nat)
    requires Good(g, kpd, k) && t in g.kind && g.kind[t].Tab? && i < WORDS_PER_FRAME && Names(Ent(g.mem, t, i))
    requires IsTable(g.mem, t) && Hand(Ent(g.mem, t, i).frame) !in g.own
    requires var f := Ent(g.mem, t, i).frame;
             && g'.client == DropClient(g.client, f) && g'.own == g.own - {Slot(t, i)} && g'.at == g.at
             && g'.kind == (if CountOf(g.client, f) == 1 then g.kind - {f} else g.kind)
             && MemKept(Rewrite(g, t, i, ZERO_WORD), g')
    ensures Good(g', kpd, k)
  {
    hide Wf, KernelThere, KMaps, HeldKept;
    var f := Ent(g.mem, t, i).frame;
    Known(g, kpd, k);
    PagesKnown(g, kpd, k, t, i);
    ClearEntryForget(g, kpd, k, t, i, f);
    var gs := Forget(Take(g, t, i), Hand(f));
    assert gs.own == g'.own;
    SetEntOne(g.mem, t, i, ZERO_WORD);
    ClearHeld(g, g', t, i, f);
    Agree(g, gs, g', kpd, k);
  }

  lemma ClearEntryForget(g: Graph, kpd: nat, k: Kernel, t: nat, i: nat, f: nat)
    requires Good(g, kpd, k) && t in g.kind && g.kind[t].Tab? && i < WORDS_PER_FRAME && Names(Ent(g.mem, t, i))
    requires IsTable(g.mem, t) && f == Ent(g.mem, t, i).frame && Hand(f) !in g.own && f in g.kind && g.kind[f].Page?
    ensures Wf(Forget(Take(g, t, i), Hand(f)), k)
  {
    hide Wf, KernelThere, KMaps;
    TabEntryFree(g, k, t, i);
    TakeOk(g, k, t, i);
    ForgetOk(Take(g, t, i), k, Hand(f));
  }

  lemma ClearHeld(g: Graph, g': Graph, t: nat, i: nat, f: nat)
    requires IsTable(g.mem, t) && i < WORDS_PER_FRAME && t in g.client && !Fixed(g.client[t])
    requires f in g.client && !Fixed(g.client[f])
    requires g'.client == DropClient(g.client, f) && MemKept(Rewrite(g, t, i, ZERO_WORD), g')
    ensures HeldKept(g, g')
  {
  }

  lemma TabEntryFree(g: Graph, k: Kernel, t: nat, i: nat)
    requires Wf(g, k) && t in g.kind && g.kind[t].Tab? && i < WORDS_PER_FRAME && Names(Ent(g.mem, t, i))
    ensures t in g.at && !KernelSlot(g, k, t, i)
  {
    hide LinkOk, RefOk, KernelOk;
    assert FrameOk(g, t);
    assert EntryOk(g, k, t, i);
  }

  /** The entries of t below n no longer name a page; discard is false once a kernel entry was met. */
  ghost predicate ClearedTo(mem: Memory, t: nat, n: nat, discard: bool) {
    && (forall j :: 0 <= j < n ==> !Names(Ent(mem, t, j)))
    && ((exists j :: 0 <= j < n && KernelPresent(Ent(mem, t, j))) ==> !discard)
  }

  ghost predicate KernelPresent(w: Word) {
    w.p && !w.ng
  }

  lemma ClearedNext(mem: Memory, mem': Memory, t: nat, n: nat, discard: bool)
    requires ClearedTo(mem, t, n, discard) && IsTable(mem, t) && n < WORDS_PER_FRAME
    requires t in mem' && mem'[t] == SetEnt(mem, t, n, ZERO_WORD)[t]
    ensures ClearedTo(mem', t, n + 1, discard)
  {
    SetEntOne(mem, t, n, ZERO_WORD);
    ContentKept(SetEnt(mem, t, n, ZERO_WORD), mem', t);
    if exists j :: 0 <= j < n + 1 && KernelPresent(Ent(mem', t, j)) {
      var j :| 0 <= j < n + 1 && KernelPresent(Ent(mem', t, j));
      assert KernelPresent(Ent(mem, t, j));
    }
  }

  lemma ClearedSkip(mem: Memory, t: nat, n: nat, discard: bool, discard': bool)
    requires ClearedTo(mem, t, n, discard) && !Names(Ent(mem, t, n))
    requires discard' == (discard && !KernelPresent(Ent(mem, t, n)))
    ensures ClearedTo(mem, t, n + 1, discard')
  {
    if exists j :: 0 <= j < n + 1 && KernelPresent(Ent(mem, t, j)) {
      var j :| 0 <= j < n + 1 && KernelPresent(Ent(mem, t, j));
      assert j < n || j == n;
    }
  }

  /** A table reached through a global private entry holds a kernel entry, so it is never empty. */
  lemma GlobalNotEmpty(g: Graph, kpd: nat, k: Kernel, d: nat, i: nat)
    requires Good(g, kpd, k) && LiveDir(g, k, d) && i < WORDS_PER_FRAME
    requires Names(Ent(g.mem, d, i)) && Ent(g.mem, d, i).g
    ensures exists j :: 0 <= j < WORDS_PER_FRAME && KernelPresent(Ent(g.mem, Ent(g.mem, d, i).frame, j))
  {
    hide KernelThere, LinkOk, RefOk, FrameOk, LiveDir;
    DirEntry(g, kpd, k, d, i);
    var t := Ent(g.mem, d, i).frame;
    assert KernelTableOk(k.dir[i], k.tabs[i]);
    var j :| 0 <= j < |k.tabs[i]| && k.tabs[i][j].p;
    assert KMaps(k, i, j);
    assert EntryOk(g, k, t, j);
    assert KernelWord(k.tabs[i][j]);
    assert KernelPresent(Ent(g.mem, t, j));
  }

  ghost predicate NoHands(own: map<Ref, nat>) {
    forall r :: r in own ==> !r.Hand?
  }

  /** Directory d, seen after an operation that edited the table at its private entry i. */
  lemma LocalDir(g: Graph, g': Graph, kpd: nat, k: Kernel, d: nat, i: nat, t: nat)
    requires Good(g, kpd, k) && LiveDir(g, k, d) && Private(g, d, i) && t == Ent(g.mem, d, i).frame
    requires Good(g', kpd, k) && Edits(g, g', t) && NonSlotsKept(g, g') && DirsStay(g, g')
    ensures LiveDir(g', k, d) && Ent(g'.mem, d, i) == Ent(g.mem, d, i) && t != d && g'.mem[d] == g.mem[d]
    ensures Private(g', d, i) && Local(g, g', d)
  {
    hide Good, KDir, LiveDir;
    LiveDirKnown(g, k, d);
    TabsKnown(g, kpd, k, d, i);
    ContentKept(g.mem, g'.mem, d);
    LiveDirKept(g, g', k, d);
    EditLocal(g, g', kpd, k, d, i, t);
  }

  lemma ClearedStart(mem: Memory, t: nat, discard: bool)
    ensures ClearedTo(mem, t, 0, discard)
  {
  }

  lemma ClearedFound(mem: Memory, t: nat, discard: bool)
    requires ClearedTo(mem, t, WORDS_PER_FRAME, discard)
    requires exists j :: 0 <= j < WORDS_PER_FRAME && KernelPresent(Ent(mem, t, j))
    ensures !discard
  {
  }

  lemma PrivateTable(g: Graph, kpd: nat, k: Kernel, d: nat, i: nat)
    requires Good(g, kpd, k) && LiveDir(g, k, d) && Private(g, d, i)
    ensures IsTable(g.mem, Ent(g.mem, d, i).frame) && i < WORDS_PER_FRAME && Names(Ent(g.mem, d, i))
  {
    hide Good, LiveDir;
    LiveDirKnown(g, k, d);
    TabsKnown(g, kpd, k, d, i);
    Known(g, kpd, k);
  }

  lemma NamedRef(g: Graph, kpd: nat, k: Kernel, t: nat, i: nat)
    requires Good(g, kpd, k) && LiveTable(g, t) && i < WORDS_PER_FRAME && Names(Ent(g.mem, t, i))
    ensures Slot(t, i) in g.own && g.own[Slot(t, i)] == Ent(g.mem, t, i).frame
  {
    hide Wf;
    NamedSlot(g, k, t, i);
  }

  /** The page a private entry names, with its client status. */
  lemma PageBelow(g: Graph, kpd: nat, k: Kernel, t: nat, i: nat)
    requires Good(g, kpd, k) && t in g.kind && g.kind[t].Tab? && i < WORDS_PER_FRAME && Names(Ent(g.mem, t, i))
    ensures var f := Ent(g.mem, t, i).frame;
            && Slot(t, i) in g.own && g.own[Slot(t, i)] == f
            && f in g.kind && g.kind[f].Page? && f in g.client && g.client[f].Counted? && f != t
            && t in g.client && !Fixed(g.client[t]) && t in g.mem && CountOf(g.client, f) >= 1
  {
    hide Good;
    Known(g, kpd, k);
    PagesKnown(g, kpd, k, t, i);
    NamedRef(g, kpd, k, t, i);
    CountedRef(g, kpd, k, Slot(t, i));
  }

  lemma EditsRefl(g: Graph, kpd: nat, k: Kernel, x: nat)
    requires Good(g, kpd, k)
    ensures Edits(g, g, x)
  {
    hide Good;
    Known(g, kpd, k);
  }

  lemma EditsTrans(g0: Graph, g1: Graph, g2: Graph, x: nat)
    requires Edits(g0, g1, x) && Edits(g1, g2, x)
    ensures Edits(g0, g2, x)
  {
  }

  // ---------- clear_pd ----------

  ghost predicate EmptyTable(mem: Memory, t: nat) {
    forall j :: 0 <= j < WORDS_PER_FRAME ==> !Names(Ent(mem, t, j))
  }

  /** The private entries of d below n lead to tables with nothing but kernel entries. */
  ghost predicate DirClearedTo(mem: Memory, d: nat, n: nat) {
    forall i :: 0 <= i < n ==> ClearedAt(mem, d, i)
  }

  ghost predicate ClearedAt(mem: Memory, d: nat, i: nat) {
    Names(Ent(mem, d, i)) ==> Ent(mem, d, i).g && EmptyTable(mem, Ent(mem, d, i).frame)
  }

  /** Entry i of d is gone and the others are as they were. */
  ghost predicate DirEntryCleared(mem: Memory, mem': Memory, d: nat, i: nat) {
    Ent(mem', d, i) == ZERO_WORD && forall j :: j != i ==> Ent(mem', d, j) == Ent(mem, d, j)
  }

  lemma TakeDirEntry(g: Graph, kpd: nat, k: Kernel, d: nat, i: nat)
    requires Good(g, kpd, k) && NoHands(g.own) && LiveDir(g, k, d) && i < WORDS_PER_FRAME
    requires Names(Ent(g.mem, d, i)) && !Ent(g.mem, d, i).g && IsTable(g.mem, d)
    ensures Good(Take(g, d, i), kpd, k)
    ensures var f := Ent(g.mem, d, i).frame; f in g.kind && g.kind[f].Tab? && f != d
  {
    hide Wf, KernelThere, LiveDir, KDir;
    LiveDirKnown(g, k, d);
    Known(g, kpd, k);
    DirEntry(g, kpd, k, d, i);
    TakeOk(g, k, d, i);
    KernelKept(g, Take(g, d, i), kpd, k);
  }

  lemma DirTable(g: Graph, s: Graph, g': Graph, d: nat, r: Ref)
    requires Loses(s, g', r) && d in g'.kind
    ensures d in g'.mem && d in s.mem && g'.mem[d] == s.mem[d]
  {
  }

  /** Directories outlive any loss of table references. */
  lemma LosesDirs(g: Graph, g': Graph, kpd: nat, k: Kernel, r: Ref)
    requires Good(g, kpd, k) && Good(g', kpd, k) && Loses(g, g', r)
    requires (r in g.own ==> g.own[r] in g.kind && !g.kind[g.own[r]].Dir?)
    ensures DirsStay(g, g')
  {
    hide Good, StaysSettled, Loses;
    forall d | d in g.kind && g.kind[d].Dir? ensures d in g'.kind && g'.kind[d].Dir? {
      LosesDir(g, g', kpd, k, r, d);
    }
    LosesSettled(g, g', r);
  }

  lemma LosesSettled(g: Graph, g': Graph, r: Ref)
    requires Loses(g, g', r)
    ensures StaysSettled(g, g')
  {
  }

  lemma LosesDir(g: Graph, g': Graph, kpd: nat, k: Kernel, r: Ref, d: nat)
    requires Good(g, kpd, k) && Good(g', kpd, k) && Loses(g, g', r)
    requires (r in g.own ==> g.own[r] in g.kind && !g.kind[g.own[r]].Dir?)
    requires d in g.kind && g.kind[d].Dir?
    ensures d in g'.kind && g'.kind[d].Dir?
  {
    hide KernelThere, EntryOk, LinkOk, KernelOk;
    Known(g', kpd, k);
    assert FrameOk(g, d);
    var q :| q in g.own && g.own[q] == d;
    assert RefOk(g, q);
  }

  lemma ClearTabEnd(g: Graph, g': Graph, kpd: nat, k: Kernel, d: nat, i: nat)
    requires Good(g, kpd, k) && NoHands(g.own) && LiveDir(g, k, d) && i < WORDS_PER_FRAME
    requires Names(Ent(g.mem, d, i)) && !Ent(g.mem, d, i).g && IsTable(g.mem, d)
    requires Good(g', kpd, k) && Loses(Take(g, d, i), g', Hand(Ent(g.mem, d, i).frame))
    requires Hand(Ent(g.mem, d, i).frame) !in g'.own
    ensures NoHands(g'.own) && LiveDir(g', k, d) && Local(g, g', d) && Edits(g, g', d)
    ensures DirEntryCleared(g.mem, g'.mem, d, i)
  {
    hide Good, KDir, LiveDir, IsTable, Ent, SetEnt;
    var f, s := Ent(g.mem, d, i).frame, Take(g, d, i);
    LiveDirKnown(g, k, d);
    Known(g, kpd, k);
    TakeDirEntry(g, kpd, k, d, i);
    LosesDirs(s, g', kpd, k, Hand(f));
    SetEntOne(g.mem, d, i, ZERO_WORD);
    ContentKept(s.mem, g'.mem, d);
    ClearTabSlots(g, s, g', d, i, f);
    EditLocal(g, g', kpd, k, d, i, d);
    Known(g', kpd, k);
    ClearTabLive(g, g', kpd, k, d, i);
  }

  lemma ClearTabSlots(g: Graph, s: Graph, g': Graph, d: nat, i: nat, f: nat)
    requires NoHands(g.own) && s.own == (g.own - {Slot(d, i)})[Hand(f) := f]
    requires Loses(s, g', Hand(f)) && Hand(f) !in g'.own
    ensures NonSlotsKept(g, g') && NoHands(g'.own)
  {
  }

  lemma ClearTabLive(g: Graph, g': Graph, kpd: nat, k: Kernel, d: nat, i: nat)
    requires Good(g, kpd, k) && LiveDir(g, k, d) && i < WORDS_PER_FRAME
    requires Names(Ent(g.mem, d, i)) && !Ent(g.mem, d, i).g
    requires d in g'.kind && g'.kind[d].Dir? && IsTable(g'.mem, d) && DirEntryCleared(g.mem, g'.mem, d, i)
    ensures LiveDir(g', k, d)
  {
    hide Good;
    DirEntry(g, kpd, k, d, i);
  }

  lemma DirClearedStart(mem: Memory, d: nat)
    ensures DirClearedTo(mem, d, 0)
  {
  }

  lemma DirClearedSkip(mem: Memory, d: nat, n: nat)
    requires DirClearedTo(mem, d, n) && !Names(Ent(mem, d, n))
    ensures DirClearedTo(mem, d, n + 1)
  {
  }

  lemma DirClearedTab(g: Graph, g': Graph, kpd: nat, k: Kernel, d: nat, n: nat)
    requires Good(g', kpd, k) && LiveDir(g', k, d) && n < WORDS_PER_FRAME
    requires DirClearedTo(g.mem, d, n) && Edits(g, g', d) && DirEntryCleared(g.mem, g'.mem, d, n)
    ensures DirClearedTo(g'.mem, d, n + 1)
  {
    hide Good, LiveDir;
    LiveDirKnown(g', k, d);
    forall i | 0 <= i < n + 1 ensures ClearedAt(g'.mem, d, i) {
      if i < n && Names(Ent(g'.mem, d, i)) {
        assert ClearedAt(g.mem, d, i);
        TabsKnown(g', kpd, k, d, i);
        ContentKept(g.mem, g'.mem, Ent(g'.mem, d, i).frame);
      }
    }
  }

  lemma GlobalPrivate(g: Graph, kpd: nat, k: Kernel, d: nat, i: nat)
    requires Good(g, kpd, k) && LiveDir(g, k, d) && i < WORDS_PER_FRAME
    requires Names(Ent(g.mem, d, i)) && Ent(g.mem, d, i).g
    ensures Private(g, d, i)
  {
    hide Good, LiveDir;
    DirEntry(g, kpd, k, d, i);
  }

  lemma DirClearedPt(g: Graph, g': Graph, kpd: nat, k: Kernel, d: nat, n: nat)
    requires Good(g', kpd, k) && LiveDir(g', k, d) && n < WORDS_PER_FRAME && Private(g', d, n)
    requires d in g.mem && d in g'.mem && g'.mem[d] == g.mem[d] && Ent(g.mem, d, n).g
    requires DirClearedTo(g.mem, d, n) && Edits(g, g', Ent(g.mem, d, n).frame)
    requires ClearedTo(g'.mem, Ent(g.mem, d, n).frame, WORDS_PER_FRAME, false)
    ensures DirClearedTo(g'.mem, d, n + 1)
  {
    hide Good, LiveDir;
    LiveDirKnown(g', k, d);
    ContentKept(g.mem, g'.mem, d);
    PrivateOthers(g', kpd, k, d, n);
    forall i | 0 <= i < n + 1 ensures ClearedAt(g'.mem, d, i) {
      if i < n && Names(Ent(g'.mem, d, i)) {
        assert ClearedAt(g.mem, d, i);
        TabsKnown(g', kpd, k, d, i);
        ContentKept(g.mem, g'.mem, Ent(g'.mem, d, i).frame);
      }
    }
  }

  /** After clear_pd the process reads zeros at every page it could own. */
  lemma ClearedView(mem: Memory, d: nat)
    requires DirClearedTo(mem, d, WORDS_PER_FRAME)
    ensures forall i, j :: 0 <= i < WORDS_PER_FRAME && 0 <= j < WORDS_PER_FRAME ==> View(mem, d, i, j) == ZeroFrame()
  {
    forall i, j | 0 <= i < WORDS_PER_FRAME && 0 <= j < WORDS_PER_FRAME ensures View(mem, d, i, j) == ZeroFrame() {
      assert ClearedAt(mem, d, i);
    }
  }

  /** The leaf entry the hardware reaches through directory d, not present if the directory entry is not. */
  ghost function Leaf(mem: Memory, d: nat, i: nat, j: nat): Word {
    if Ent(mem, d, i).p && Ent(mem, Ent(mem, d, i).frame, j).p then Ent(mem, Ent(mem, d, i).frame, j) else ZERO_WORD
  }

  /** After clear_pd every address translates exactly as through the kernel's own directory. */
  lemma ClearedIsKernel(g: Graph, kpd: nat, k: Kernel, d: nat, i: nat, j: nat)
    requires Good(g, kpd, k) && LiveDir(g, k, d) && DirClearedTo(g.mem, d, WORDS_PER_FRAME)
    requires i < WORDS_PER_FRAME && j < WORDS_PER_FRAME
    ensures Leaf(g.mem, d, i, j) == Leaf(g.mem, kpd, i, j)
  {
    hide LinkOk, RefOk, FrameOk;
    assert ClearedAt(g.mem, d, i);
    DirEntry(g, kpd, k, d, i);
    KernelLeaf(g, kpd, k, i, j);
    if Names(Ent(g.mem, d, i)) {
      TabsKnown(g, kpd, k, d, i);
      assert EntryOk(g, k, Ent(g.mem, d, i).frame, j);
    }
  }

  lemma KernelLeaf(g: Graph, kpd: nat, k: Kernel, i: nat, j: nat)
    requires Good(g, kpd, k) && i < WORDS_PER_FRAME && j < WORDS_PER_FRAME
    ensures Ent(g.mem, kpd, i) == k.dir[i]
    ensures KDir(k, i) ==> Ent(g.mem, k.dir[i].frame, j) == k.tabs[i][j]
    ensures Leaf(g.mem, kpd, i, j) == if KMaps(k, i, j) then k.tabs[i][j] else ZERO_WORD
  {
    hide EntryOk, LinkOk, RefOk, FrameOk;
    if KDir(k, i) {
      assert KernelTable(g, k, i);
    }
  }
}
