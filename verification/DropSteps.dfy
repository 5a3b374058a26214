/** Giving references up: decref with its destroy callbacks (kernel/vmm.cc, kernel/physmem.h). */
module DropSteps {
  import opened Frames
  import opened PhysMem
  import opened PageGraph
  import opened VmmSteps
  import opened DirSteps

  /** Frames may be gone, but what is left is unchanged; only r and the references of x went. */
  ghost predicate Shrinks(g: Graph, g': Graph, x: nat, r: Ref) {
    && HeldKept(g, g')
    && (forall f :: f in g'.kind ==> f in g.kind && f in g.mem && f in g'.mem && g'.mem[f] == g.mem[f])
    && (forall f :: f in g'.kind && f != x ==> SameTable(g, g', f))
    && (forall q :: q in g'.own ==> q in g.own && g'.own[q] == g.own[q])
    && (forall q :: q in g.own && q != r && !(q.Slot? && q.table == x) ==> q in g'.own)
  }

  lemma ShrinksTrans(g0: Graph, g1: Graph, g2: Graph, x: nat, r: Ref, q: Ref)
    requires Shrinks(g0, g1, x, r) && Shrinks(g1, g2, x, q)
    requires q == r || (q.Slot? && q.table == x)
    ensures Shrinks(g0, g2, x, r)
  {
  }

  /** What is left of g is unchanged; of the references outside tables only r may be gone. */
  ghost predicate Loses(g: Graph, g': Graph, r: Ref) {
    && HeldKept(g, g')
    && (forall f :: f in g'.kind ==> SameTable(g, g', f) && f in g.mem && f in g'.mem && g'.mem[f] == g.mem[f])
    && (forall q :: q in g'.own ==> q in g.own && g'.own[q] == g.own[q])
    && (forall q :: q in g.own && !q.Slot? && q != r ==> q in g'.own)
  }

  ghost predicate KeepsSlots(g: Graph, g': Graph, t: nat, r: Ref) {
    r !in g'.own && forall q :: q in g.own && q.Slot? && q.table != t && q != r ==> q in g'.own
  }

  lemma LosesTrans(g0: Graph, g1: Graph, g2: Graph, r: Ref, q: Ref)
    requires Loses(g0, g1, r) && Loses(g1, g2, q) && (q == r || q.Slot?)
    ensures Loses(g0, g2, r)
  {
  }

  lemma LosesRefl(g: Graph, kpd: nat, k: Kernel, r: Ref)
    requires Good(g, kpd, k)
    ensures Loses(g, g, r)
  {
    hide Good;
    Known(g, kpd, k);
  }

  lemma LosesRoot(g: Graph, g': Graph, q: Ref, pid: nat)
    requires Loses(g, g', q) && Root(pid) in g.own && q.Slot?
    ensures Root(pid) in g'.own && g'.own[Root(pid)] == g.own[Root(pid)]
  {
  }

  lemma ShrinksLoses(g: Graph, g': Graph, kpd: nat, k: Kernel, t: nat, r: Ref)
    requires Good(g, kpd, k) && Good(g', kpd, k) && Shrinks(g, g', t, r) && g'.at == g.at
    requires t in g'.kind ==> t in g.kind && g'.kind[t] == g.kind[t]
    requires r !in g'.own
    ensures Loses(g, g', r) && KeepsSlots(g, g', t, r)
  {
    hide Good;
    Known(g', kpd, k);
    Known(g, kpd, k);
  }

  /** A directory that survives shows what it showed before. */
  lemma LosesView(g: Graph, g': Graph, kpd: nat, k: Kernel, r: Ref, d: nat)
    requires Good(g', kpd, k) && Loses(g, g', r) && d in g'.kind && g'.kind[d].Dir?
    ensures SameView(g, g', d, d)
    ensures LiveDir(g, k, d) ==> LiveDir(g', k, d)
  {
    hide Good, KDir;
    ContentKept(g.mem, g'.mem, d);
    forall i, j | 0 <= i < WORDS_PER_FRAME && 0 <= j < WORDS_PER_FRAME
      ensures View(g'.mem, d, i, j) == View(g.mem, d, i, j)
    {
      TabsKnown(g', kpd, k, d, i);
      if Names(Ent(g'.mem, d, i)) {
        var t := Ent(g'.mem, d, i).frame;
        ContentKept(g.mem, g'.mem, t);
        PagesKnown(g', kpd, k, t, j);
      }
    }
  }

  ghost function DropClient(c: Clients, f: nat): Clients {
    if CountOf(c, f) == 1 then c - {f} else c[f := Counted(Less(CountOf(c, f)))]
  }

  /** decref of a page, or of any frame with other references. */
  lemma DropStep(g: Graph, g': Graph, kpd: nat, k: Kernel, r: Ref)
    requires Good(g, kpd, k) && Droppable(g, r)
    requires g.own[r] in g.kind && (g.kind[g.own[r]].Page? || CountOf(g.client, g.own[r]) > 1)
    requires g'.client == DropClient(g.client, g.own[r]) && g'.own == g.own - {r} && g'.at == g.at
    requires g'.kind == if CountOf(g.client, g.own[r]) == 1 then g.kind - {g.own[r]} else g.kind
    requires MemKept(g, g')
    ensures Good(g', kpd, k) && forall x :: Shrinks(g, g', x, r)
  {
    hide Wf, KernelThere;
    Known(g, kpd, k);
    ForgetOk(g, k, r);
    DropHeld(g, g', g.own[r]);
    Agree(g, Forget(g, r), g', kpd, k);
  }

  lemma DropHeld(g: Graph, g': Graph, f: nat)
    requires f in g.client && !Fixed(g.client[f]) && MemKept(g, g')
    requires forall h :: h in g.client && h != f ==> h in g'.client && g'.client[h] == g.client[h]
    ensures HeldKept(g, g')
  {
  }

  /** decref of the last reference to a table: destroy_pt may now run on it. */
  lemma AgeStep(g: Graph, g': Graph, kpd: nat, k: Kernel, r: Ref)
    requires Good(g, kpd, k) && Droppable(g, r)
    requires g.own[r] in g.kind && g.kind[g.own[r]].Tab? && CountOf(g.client, g.own[r]) == 1
    requires g'.client == g.client[g.own[r] := Pending] && g'.own == g.own - {r} && g'.at == g.at
    requires g'.kind == g.kind[g.own[r] := OldTab] && MemKept(g, g')
    ensures Good(g', kpd, k) && Shrinks(g, g', g.own[r], r) && Dying(g', g.own[r], 0)
  {
    hide Wf, KernelThere;
    Known(g, kpd, k);
    AgeTabOk(g, k, r);
    DropHeld(g, g', g.own[r]);
    Agree(g, AgeTab(g, r), g', kpd, k);
    AgedSlots(g, g', k, r);
  }

  lemma AgedSlots(g: Graph, g': Graph, k: Kernel, r: Ref)
    requires Wf(g, k) && Droppable(g, r) && g.own[r] in g.kind && g.kind[g.own[r]].Tab?
    requires g'.own == g.own - {r} && g'.kind == g.kind[g.own[r] := OldTab]
    requires var t := g.own[r]; t in g.mem && t in g'.mem && g'.mem[t] == g.mem[t]
    ensures Dying(g', g.own[r], 0)
  {
    hide Wf;
    Closed(g, k);
    AllNamed(g, k);
    ContentKept(g.mem, g'.mem, g.own[r]);
  }

  /** Table or directory t is being destroyed; its entries below n have been given up. */
  ghost predicate Dying(g: Graph, t: nat, n: nat) {
    && t in g.kind && (g.kind[t].OldTab? || g.kind[t].OldDir?) && IsTable(g.mem, t)
    && (forall q :: q in g.own && q.Slot? && q.table == t ==> n <= q.index < WORDS_PER_FRAME)
    && (forall i :: n <= i < WORDS_PER_FRAME && Names(Ent(g.mem, t, i)) ==> Slot(t, i) in g.own)
  }

  /** The reference an entry of a dying table still holds. */
  lemma DyingEntry(g: Graph, kpd: nat, k: Kernel, t: nat, n: nat)
    requires Good(g, kpd, k) && Dying(g, t, n) && n < WORDS_PER_FRAME && Names(Ent(g.mem, t, n))
    ensures var r := Slot(t, n);
            && Droppable(g, r) && g.own[r] == Ent(g.mem, t, n).frame && g.own[r] in g.kind && g.own[r] != t
            && g.own[r] in g.client && g.client[g.own[r]] == Counted(|RefsTo(g.own, g.own[r])|)
            && CountOf(g.client, g.own[r]) >= 1
            && (g.kind[t].OldTab? ==> g.kind[g.own[r]].Page?) && (g.kind[t].OldDir? ==> g.kind[g.own[r]].Tab?)
  {
    hide KernelThere, LinkOk, KernelOk;
    var r := Slot(t, n);
    assert RefOk(g, r);
    Closed(g, k);
    assert EntryOk(g, k, t, n);
    NamedFrame(g, k, r);
    assert r in RefsTo(g.own, g.own[r]);
  }

  lemma DyingSkip(g: Graph, kpd: nat, k: Kernel, t: nat, n: nat)
    requires Good(g, kpd, k) && Dying(g, t, n) && n < WORDS_PER_FRAME && !Names(Ent(g.mem, t, n))
    ensures Dying(g, t, n + 1)
  {
    hide KernelThere, LinkOk, KernelOk, RefOk;
    assert FrameOk(g, t);
    assert EntryOk(g, k, t, n);
  }

  lemma DyingNext(g: Graph, g': Graph, t: nat, n: nat)
    requires Dying(g, t, n) && n < WORDS_PER_FRAME && Shrinks(g, g', t, Slot(t, n))
    requires g'.own == g.own - {Slot(t, n)} && t in g'.kind && g'.kind[t] == g.kind[t]
    ensures Dying(g', t, n + 1)
  {
    ContentKept(g.mem, g'.mem, t);
  }

  /** dealloc of a table all of whose references are gone. */
  lemma BuryStep(g: Graph, g': Graph, kpd: nat, k: Kernel, t: nat)
    requires Good(g, kpd, k) && Dying(g, t, WORDS_PER_FRAME) && g.kind[t].OldTab?
    requires g'.client == g.client - {t} && g'.own == g.own && g'.at == g.at && g'.kind == g.kind - {t}
    requires MemKept(g, g')
    ensures Good(g', kpd, k) && forall r :: Shrinks(g, g', t, r)
  {
    hide Wf, KernelThere;
    Known(g, kpd, k);
    assert SlotsOf(g.own, t) == {};
    BuryTabOk(g, k, t);
    DropHeld(g, g', t);
    Agree(g, Bury(g, t), g', kpd, k);
  }

  // ---------- an entry that is about to be cleared ----------

  /** The graph in which entry z is already cleared. */
  ghost function Masked(g: Graph, z: Ref): Graph {
    if z.Slot? && IsTable(g.mem, z.table) && z.index < WORDS_PER_FRAME
    then Rewrite(g, z.table, z.index, ZERO_WORD) else g
  }

  lemma MaskKept(g: Graph, g': Graph, z: Ref)
    requires MemKept(g, g') && (z.Slot? ==> z.table in g.client && z.table in g'.client)
    ensures MemKept(Masked(g, z), Masked(g', z))
  {
  }

  /** No entry is being cleared. */
  ghost function NoMask(): Ref {
    Root(0)
  }

  lemma MaskedSame(g: Graph, z: Ref)
    ensures var m := Masked(g, z); m.client == g.client && m.own == g.own && m.kind == g.kind && m.at == g.at
    ensures forall f :: (f in g.mem <==> f in Masked(g, z).mem)
    ensures forall f :: f in g.mem && (z.Slot? ==> f != z.table) ==> Masked(g, z).mem[f] == g.mem[f]
  {
  }

  lemma FramesKept(g: Graph, g': Graph, f: nat)
    requires g'.client == DropClient(g.client, f)
    requires forall h :: h in g'.client ==> h in g.mem ==> h in g'.mem && g'.mem[h] == g.mem[h]
    ensures MemKept(g, g')
  {
  }

  /** decref of a page while entry z is being cleared. */
  lemma DropMasked(g: Graph, g': Graph, kpd: nat, k: Kernel, r: Ref, z: Ref)
    requires Good(Masked(g, z), kpd, k) && Droppable(Masked(g, z), r)
    requires g.own[r] in g.kind && g.kind[g.own[r]].Page?
    requires z.Slot? ==> z.table in g.client && z.table in g'.client
    requires g'.client == DropClient(g.client, g.own[r]) && g'.own == g.own - {r} && g'.at == g.at
    requires g'.kind == if CountOf(g.client, g.own[r]) == 1 then g.kind - {g.own[r]} else g.kind
    requires MemKept(g, g')
    ensures Good(Masked(g', z), kpd, k) && forall x :: Shrinks(Masked(g, z), Masked(g', z), x, r)
  {
    hide Good, Masked, Shrinks, MemKept, Droppable;
    MaskedSame(g, z);
    MaskedSame(g', z);
    MaskKept(g, g', z);
    DropStep(Masked(g, z), Masked(g', z), kpd, k, r);
  }

  lemma ShrinksRefl(g: Graph, kpd: nat, k: Kernel, x: nat, r: Ref)
    requires Good(g, kpd, k)
    ensures Shrinks(g, g, x, r)
  {
    hide Good;
    Known(g, kpd, k);
  }

  lemma DyingTable(g: Graph, t: nat, n: nat)
    requires Dying(g, t, n)
    ensures t in g.kind && IsTable(g.mem, t)
  {
  }

  /** Every reference is counted. */
  lemma CountedRef(g: Graph, kpd: nat, k: Kernel, r: Ref)
    requires Good(g, kpd, k) && r in g.own
    ensures var f := g.own[r];
            f in g.kind && f in g.client && g.client[f].Counted? && CountOf(g.client, f) >= 1
  {
    hide KernelThere, Wf;
    NamedFrame(g, k, r);
    assert r in RefsTo(g.own, g.own[r]);
  }

  lemma PendingTab(g: Graph, kpd: nat, k: Kernel, t: nat)
    requires Good(g, kpd, k) && t in g.kind && g.kind[t].OldTab?
    ensures t in g.client && g.client[t].Pending?
  {
    hide KernelThere, EntryOk, LinkOk, RefOk, KernelOk;
    assert FrameOk(g, t);
  }

  /** After one table of a dying directory is given up. */
  lemma DyingDirNext(g: Graph, g': Graph, kpd: nat, k: Kernel, d: nat, n: nat)
    requires Good(g', kpd, k) && Dying(g, d, n) && n < WORDS_PER_FRAME && g.kind[d].OldDir?
    requires Loses(g, g', Slot(d, n)) && Slot(d, n) !in g'.own && d in g'.kind
    requires KeepsSlots(g, g', Ent(g.mem, d, n).frame, Slot(d, n)) && Ent(g.mem, d, n).frame != d
    ensures Dying(g', d, n + 1) && g'.kind[d].OldDir?
  {
    hide Good;
    ContentKept(g.mem, g'.mem, d);
  }

  lemma ShrinksGone(g: Graph, g': Graph, t: nat, q: Ref, r: Ref)
    requires Shrinks(g, g', t, q) && r !in g.own
    ensures r !in g'.own
  {
  }

  /** destroy_pd begins. */
  lemma AgeDirBegin(g: Graph, kpd: nat, k: Kernel, d: nat)
    requires Good(g, kpd, k) && d in g.kind && g.kind[d].Dir? && Hand(d) !in g.own
    ensures var g' := AgeDir(g, d);
            Good(g', kpd, k) && Dying(g', d, 0)
  {
    hide Wf;
    Known(g, kpd, k);
    AgeDirOk(g, k, d);
    KernelKept(g, AgeDir(g, d), kpd, k);
    AllNamed(g, k);
    Closed(g, k);
  }

  /** destroy_pd ends: the directory had exactly one reference, and it goes with its frame. */
  lemma DropDirStep(g: Graph, g': Graph, kpd: nat, k: Kernel, d: nat, pid: nat)
    requires Good(g, kpd, k) && Dying(g, d, WORDS_PER_FRAME) && g.kind[d].OldDir?
    requires Root(pid) in g.own && g.own[Root(pid)] == d
    requires g'.client == DropClient(g.client, d) && g'.own == g.own - {Root(pid)} && g'.at == g.at
    requires g'.kind == g.kind - {d} && MemKept(g, g')
    ensures Good(g', kpd, k) && Loses(g, g', Root(pid))
  {
    hide Wf, KernelThere;
    Known(g, kpd, k);
    OneRoot(g, kpd, k, d);
    assert SlotsOf(g.own, d) == {};
    DropDirOk(g, k, Root(pid));
    DropHeld(g, g', d);
    Agree(g, DropDir(g, Root(pid)), g', kpd, k);
  }

  /** A live or dying directory is counted once. */
  lemma OneRoot(g: Graph, kpd: nat, k: Kernel, d: nat)
    requires Good(g, kpd, k) && d in g.kind && (g.kind[d].Dir? || g.kind[d].OldDir?)
    ensures d in g.client && g.client[d] == Counted(1)
  {
    hide KernelThere, EntryOk, LinkOk, RefOk, KernelOk;
    assert FrameOk(g, d);
  }

  /** The whole of destroy_pd, seen from before the directory was marked. */
  lemma AgedLoses(g: Graph, g': Graph, kpd: nat, k: Kernel, d: nat, pid: nat)
    requires Good(g, kpd, k) && Loses(AgeDir(g, d), g', Root(pid)) && d !in g'.kind
    ensures Loses(g, g', Root(pid))
  {
    hide Good;
    Known(g, kpd, k);
  }

  /** A dying directory keeps its frame as long as a process refers to it. */
  lemma DyingSurvives(g: Graph, g': Graph, kpd: nat, k: Kernel, d: nat, n: nat)
    requires Good(g, kpd, k) && Good(g', kpd, k) && d in g.kind && g.kind[d].OldDir? && Loses(g, g', Slot(d, n))
    ensures d in g'.kind
  {
    hide KernelThere, EntryOk, LinkOk, KernelOk;
    assert FrameOk(g, d);
    var q :| q in g.own && g.own[q] == d;
    assert RefOk(g, q);
    Known(g', kpd, k);
  }
}
