/** Processes and what they see: the link between the page graph and eager copying. */
module ProcSteps {
  import opened Frames
  import opened PhysMem
  import opened PageGraph
  import opened VmmSteps
  import opened DirSteps
  import opened DropSteps
  import opened ProtectSteps
  import opened ClearSteps
  import opened MapSteps
  import opened Mmu
  import opened FaultSteps
  import opened EagerCopy
  import opened Sets

  type Procs = map<nat, nat>

  /** Every process has a directory of its own, every directory belongs to a process, and between
      operations nothing is held in a local variable and nothing is being destroyed. */
  ghost predicate ProcsOk(g: Graph, cr3: Procs) {
    && NoHands(g.own) && Settled(g)
    && (forall pid :: pid in cr3 <==> Root(pid) in g.own)
    && (forall pid :: pid in cr3 ==> g.own[Root(pid)] == cr3[pid] && IsDir(g, cr3[pid]))
  }

  ghost predicate IsDir(g: Graph, d: nat) {
    d in g.kind && g.kind[d].Dir?
  }

  /** Directory d shows exactly the pages of space s. */
  ghost predicate SpaceIs(mem: Memory, d: nat, s: Space) {
    forall i, j :: 0 <= i < WORDS_PER_FRAME && 0 <= j < WORDS_PER_FRAME ==>
      View(mem, d, i, j) == PageIn(s, i * WORDS_PER_FRAME + j)
  }

  ghost predicate Shows(mem: Memory, cr3: Procs, s: Spaces) {
    && cr3.Keys == s.Keys
    && forall pid :: pid in cr3 ==> SpaceIs(mem, cr3[pid], s[pid])
  }

  lemma SpaceKept(g: Graph, g': Graph, d: nat, s: Space)
    requires SpaceIs(g.mem, d, s) && SameView(g, g', d, d)
    ensures SpaceIs(g'.mem, d, s)
  {
    hide View, PageIn;
  }

  lemma SpaceCopied(g: Graph, g': Graph, d: nat, d': nat, s: Space)
    requires SpaceIs(g.mem, d, s) && SameView(g, g', d, d')
    ensures SpaceIs(g'.mem, d', s)
  {
    hide View, PageIn;
  }

  /** The directory of a process is complete. */
  lemma ProcLive(g: Graph, kpd: nat, k: Kernel, cr3: Procs, pid: nat)
    requires Good(g, kpd, k) && ProcsOk(g, cr3) && pid in cr3
    ensures LiveDir(g, k, cr3[pid])
  {
    hide KernelThere, EntryOk, RefOk, KernelOk;
    assert FrameOk(g, cr3[pid]);
    assert LinkOk(g, k, Root(pid));
  }

  /** No two processes share a directory. */
  lemma OwnDirs(g: Graph, kpd: nat, k: Kernel, cr3: Procs)
    requires Good(g, kpd, k) && ProcsOk(g, cr3)
    ensures forall p, q :: p in cr3 && q in cr3 && p != q ==> cr3[p] != cr3[q]
  {
    hide KernelThere, EntryOk, RefOk, KernelOk, LinkOk;
    forall p, q | p in cr3 && q in cr3 && p != q ensures cr3[p] != cr3[q] {
      if cr3[p] == cr3[q] {
        assert FrameOk(g, cr3[p]);
        SubsetCard({Root(p), Root(q)}, RefsTo(g.own, cr3[p]));
      }
    }
  }

  /** The references outside tables are as before, except that pages may have been left behind. */
  lemma ProcsKept(g: Graph, g': Graph, cr3: Procs)
    requires ProcsOk(g, cr3) && OnlyLeaks(g, g') && DirsStay(g, g')
    ensures ProcsOk(g', cr3)
  {
    forall pid ensures pid in cr3 <==> Root(pid) in g'.own {
    }
    forall pid | pid in cr3 ensures g'.own[Root(pid)] == cr3[pid] && IsDir(g', cr3[pid]) {
      assert IsDir(g, cr3[pid]);
    }
  }

  lemma KeptOnlyLeaks(g: Graph, g': Graph)
    requires NonSlotsKept(g, g')
    ensures OnlyLeaks(g, g')
  {
  }

  /** Nobody sees a difference. */
  lemma ShowsKept(g: Graph, g': Graph, cr3: Procs, s: Spaces)
    requires Shows(g.mem, cr3, s) && forall pid :: pid in cr3 ==> SameView(g, g', cr3[pid], cr3[pid])
    ensures Shows(g'.mem, cr3, s)
  {
    hide SpaceIs, SameView;
    forall pid | pid in cr3 ensures SpaceIs(g'.mem, cr3[pid], s[pid]) {
      SpaceKept(g, g', cr3[pid], s[pid]);
    }
  }

  lemma SeenByAll(g: Graph, g': Graph, kpd: nat, k: Kernel, cr3: Procs, d: nat)
    requires Good(g, kpd, k) && ProcsOk(g, cr3) && SameView(g, g', d, d) && Elsewhere(g, g', d)
    ensures forall pid :: pid in cr3 ==> SameView(g, g', cr3[pid], cr3[pid])
  {
    hide SameView, Good;
    forall pid | pid in cr3 ensures SameView(g, g', cr3[pid], cr3[pid]) {
      assert IsDir(g, cr3[pid]);
    }
  }

  // ---------- a store ----------

  ghost function LeafFrame(mem: Memory, d: nat, i: nat, j: nat): nat {
    Ent(mem, Ent(mem, d, i).frame, j).frame
  }

  /** An access the hardware allows to a user program reaches the private page that is shown there. */
  lemma AllowedPage(g: Graph, kpd: nat, k: Kernel, d: nat, i: nat, j: nat, write: bool)
    requires Good(g, kpd, k) && LiveDir(g, k, d) && i < WORDS_PER_FRAME && j < WORDS_PER_FRAME
    requires Translate(g.mem, d, i, j, Access(write, true)).Allowed?
    ensures var f := Translate(g.mem, d, i, j, Access(write, true)).frame;
            && f == LeafFrame(g.mem, d, i, j) && IsTable(g.mem, f) && View(g.mem, d, i, j) == g.mem[f] && f in g.client
    ensures !KMaps(k, i, j) && i * WORDS_PER_FRAME + j >= USER_PAGES
    ensures write ==> Writable(g.mem, d, i, j)
  {
    hide EntryOk, FrameOk, RefOk, LinkOk, LiveDir;
    DirEntry(g, kpd, k, d, i);
    KernelLeaf(g, kpd, k, i, j);
    KernelEntryFlags(k, i, j);
    assert Names(Ent(g.mem, d, i));
    PrivateLeaf(g, kpd, k, d, i, j);
    LiveDirKnown(g, k, d);
    PrivatePage(g, kpd, k, d, i, j);
  }

  lemma PrivatePage(g: Graph, kpd: nat, k: Kernel, d: nat, i: nat, j: nat)
    requires Good(g, kpd, k) && IsDir(g, d) && i < WORDS_PER_FRAME && j < WORDS_PER_FRAME
    requires Names(Ent(g.mem, d, i)) && Names(Ent(g.mem, Ent(g.mem, d, i).frame, j))
    ensures var t, f := Ent(g.mem, d, i).frame, LeafFrame(g.mem, d, i, j);
            && t in g.kind && g.kind[t].Tab?
            && f in g.kind && g.kind[f].Page? && IsTable(g.mem, f) && f in g.client && f in g.mem
            && i * WORDS_PER_FRAME + j >= USER_PAGES
            && Slot(t, j) in g.own && g.own[Slot(t, j)] == f && Slot(d, i) in g.own && g.own[Slot(d, i)] == t
  {
    hide KernelThere, EntryOk, LinkOk, KernelOk;
    TabsKnown(g, kpd, k, d, i);
    var t := Ent(g.mem, d, i).frame;
    PagesKnown(g, kpd, k, t, j);
    NamedRef(g, kpd, k, d, i);
    NamedRef(g, kpd, k, t, j);
    assert RefOk(g, Slot(t, j)) && FrameOk(g, LeafFrame(g.mem, d, i, j));
  }

  /** A writable page is reached by exactly one process at exactly one address. */
  lemma WritableExclusive(g: Graph, kpd: nat, k: Kernel, d: nat, i: nat, j: nat, h: nat, n: nat, m: nat)
    requires Good(g, kpd, k) && IsDir(g, d) && IsDir(g, h)
    requires i < WORDS_PER_FRAME && j < WORDS_PER_FRAME && n < WORDS_PER_FRAME && m < WORDS_PER_FRAME
    requires Writable(g.mem, d, i, j)
    requires Names(Ent(g.mem, h, n)) && Names(Ent(g.mem, Ent(g.mem, h, n).frame, m))
    requires LeafFrame(g.mem, h, n, m) == LeafFrame(g.mem, d, i, j)
    ensures h == d && n == i && m == j
  {
    hide Wf, KernelThere;
    PrivatePage(g, kpd, k, d, i, j);
    PrivatePage(g, kpd, k, h, n, m);
    SoleEntry(g, k, Ent(g.mem, d, i).frame, j);
    SoleEntry(g, k, d, i);
  }

  /** A store through a writable translation changes one word of one process's view. */
  lemma StoreStep(g: Graph, g': Graph, kpd: nat, k: Kernel, d: nat, i: nat, j: nat, o: nat, w: Word)
    requires Good(g, kpd, k) && IsDir(g, d) && i < WORDS_PER_FRAME && j < WORDS_PER_FRAME && o < WORDS_PER_FRAME
    requires Writable(g.mem, d, i, j) && IsTable(g.mem, LeafFrame(g.mem, d, i, j))
    requires g' == g.(mem := SetEnt(g.mem, LeafFrame(g.mem, d, i, j), o, w))
    ensures Good(g', kpd, k)
    ensures View(g'.mem, d, i, j) == WithWord(View(g.mem, d, i, j), o, w)
    ensures forall h, n, m ::
      IsDir(g, h) && 0 <= n < WORDS_PER_FRAME && 0 <= m < WORDS_PER_FRAME && (h != d || n != i || m != j) ==>
        View(g'.mem, h, n, m) == View(g.mem, h, n, m)
  {
    hide Wf, KernelThere;
    var f := LeafFrame(g.mem, d, i, j);
    PrivatePage(g, kpd, k, d, i, j);
    Known(g, kpd, k);
    WfMem(g, k, g'.mem);
    KernelKept(g, g', kpd, k);
    StoreViews(g, g', kpd, k, d, i, j, f);
    StoreView(g, g', kpd, k, d, i, j, o, w);
  }

  lemma StoreView(g: Graph, g': Graph, kpd: nat, k: Kernel, d: nat, i: nat, j: nat, o: nat, w: Word)
    requires Good(g, kpd, k) && IsDir(g, d) && i < WORDS_PER_FRAME && j < WORDS_PER_FRAME && o < WORDS_PER_FRAME
    requires Writable(g.mem, d, i, j) && IsTable(g.mem, LeafFrame(g.mem, d, i, j))
    requires g' == g.(mem := SetEnt(g.mem, LeafFrame(g.mem, d, i, j), o, w))
    ensures View(g'.mem, d, i, j) == WithWord(View(g.mem, d, i, j), o, w)
  {
    hide Good;
    PrivatePage(g, kpd, k, d, i, j);
    Known(g, kpd, k);
    ContentKept(g.mem, g'.mem, d);
    ContentKept(g.mem, g'.mem, Ent(g.mem, d, i).frame);
  }

  lemma StoreViews(g: Graph, g': Graph, kpd: nat, k: Kernel, d: nat, i: nat, j: nat, f: nat)
    requires Good(g, kpd, k) && IsDir(g, d) && i < WORDS_PER_FRAME && j < WORDS_PER_FRAME
    requires Writable(g.mem, d, i, j) && f == LeafFrame(g.mem, d, i, j) && f in g.kind && g.kind[f].Page?
    requires forall u :: u in g.mem && u != f ==> u in g'.mem && g'.mem[u] == g.mem[u]
    ensures forall h, n, m ::
      IsDir(g, h) && 0 <= n < WORDS_PER_FRAME && 0 <= m < WORDS_PER_FRAME && (h != d || n != i || m != j) ==>
        View(g'.mem, h, n, m) == View(g.mem, h, n, m)
  {
    hide Good, Writable, LeafFrame;
    Known(g, kpd, k);
    forall h, n, m | IsDir(g, h) && 0 <= n < WORDS_PER_FRAME && 0 <= m < WORDS_PER_FRAME && (h != d || n != i || m != j)
      ensures View(g'.mem, h, n, m) == View(g.mem, h, n, m)
    {
      StoreOther(g, g', kpd, k, d, i, j, f, h, n, m);
    }
  }

  lemma StoreOther(g: Graph, g': Graph, kpd: nat, k: Kernel, d: nat, i: nat, j: nat, f: nat, h: nat, n: nat, m: nat)
    requires Good(g, kpd, k) && IsDir(g, d) && IsDir(g, h)
    requires i < WORDS_PER_FRAME && j < WORDS_PER_FRAME && n < WORDS_PER_FRAME && m < WORDS_PER_FRAME
    requires Writable(g.mem, d, i, j) && f == LeafFrame(g.mem, d, i, j) && f in g.kind && g.kind[f].Page?
    requires forall u :: u in g.mem && u != f ==> u in g'.mem && g'.mem[u] == g.mem[u]
    requires h != d || n != i || m != j
    ensures View(g'.mem, h, n, m) == View(g.mem, h, n, m)
  {
    hide Good;
    Known(g, kpd, k);
    ContentKept(g.mem, g'.mem, h);
    TabsKnown(g, kpd, k, h, n);
    if Names(Ent(g.mem, h, n)) {
      var t := Ent(g.mem, h, n).frame;
      ContentKept(g.mem, g'.mem, t);
      PagesKnown(g, kpd, k, t, m);
      if Names(Ent(g.mem, t, m)) && Ent(g.mem, t, m).frame == f {
        WritableExclusive(g, kpd, k, d, i, j, h, n, m);
      }
    }
  }

  lemma StoreShows(g: Graph, g': Graph, kpd: nat, k: Kernel, cr3: Procs, s: Spaces, pid: nat, i: nat, j: nat, o: nat,
                   w: Word)
    requires Good(g, kpd, k) && ProcsOk(g, cr3) && Shows(g.mem, cr3, s) && pid in cr3
    requires i < WORDS_PER_FRAME && j < WORDS_PER_FRAME && o < WORDS_PER_FRAME
    requires Writable(g.mem, cr3[pid], i, j) && IsTable(g.mem, LeafFrame(g.mem, cr3[pid], i, j))
    requires g' == g.(mem := SetEnt(g.mem, LeafFrame(g.mem, cr3[pid], i, j), o, w))
    ensures Good(g', kpd, k) && ProcsOk(g', cr3)
    ensures Shows(g'.mem, cr3, s[pid := Stored(s[pid], i * WORDS_PER_FRAME + j, o, w)])
  {
    hide Good, View, WithWord, Writable, LeafFrame;
    var d := cr3[pid];
    assert IsDir(g, d);
    StoreStep(g, g', kpd, k, d, i, j, o, w);
    OwnDirs(g, kpd, k, cr3);
    var s' := s[pid := Stored(s[pid], i * WORDS_PER_FRAME + j, o, w)];
    forall q | q in cr3 ensures SpaceIs(g'.mem, cr3[q], s'[q]) {
      assert IsDir(g, cr3[q]) && SpaceIs(g.mem, cr3[q], s[q]);
      forall n, m | 0 <= n < WORDS_PER_FRAME && 0 <= m < WORDS_PER_FRAME
        ensures View(g'.mem, cr3[q], n, m) == PageIn(s'[q], n * WORDS_PER_FRAME + m)
      {
        assert View(g.mem, cr3[q], n, m) == PageIn(s[q], n * WORDS_PER_FRAME + m);
        if q == pid {
          PageNumber(i, j, n, m);
        }
      }
    }
  }

  lemma PageNumber(i: nat, j: nat, n: nat, m: nat)
    requires j < WORDS_PER_FRAME && m < WORDS_PER_FRAME
    ensures i * WORDS_PER_FRAME + j == n * WORDS_PER_FRAME + m <==> i == n && j == m
  {
  }

  // ---------- new processes ----------

  lemma GrownView(g: Graph, g': Graph, kpd: nat, k: Kernel, x: nat, d: nat)
    requires Good(g, kpd, k) && Grown(g, g', x) && IsDir(g, d)
    ensures SameView(g, g', d, d)
  {
    hide Good;
    ContentKept(g.mem, g'.mem, d);
    forall i, j | 0 <= i < WORDS_PER_FRAME && 0 <= j < WORDS_PER_FRAME
      ensures View(g'.mem, d, i, j) == View(g.mem, d, i, j)
    {
      TabsKnown(g, kpd, k, d, i);
      if Names(Ent(g.mem, d, i)) {
        TabViewGrown(g, g', kpd, k, Ent(g.mem, d, i).frame, x);
      }
    }
  }

  /** The directory of a new process gets its first and only reference. */
  lemma AdoptStep(g: Graph, g': Graph, kpd: nat, k: Kernel, cr3: Procs, s: Spaces, d: nat, pid: nat, initial: Space)
    requires Good(g, kpd, k) && Good(g', kpd, k) && ProcsOk(g, cr3) && Shows(g.mem, cr3, s) && pid !in cr3
    requires Grown(g, g', d) && Building(g', d, Dir, 0) && LiveDir(g', k, d) && SpaceIs(g'.mem, d, initial)
    ensures var g2 := Rename(g', d, Root(pid));
            && Good(g2, kpd, k) && ProcsOk(g2, cr3[pid := d]) && Shows(g2.mem, cr3[pid := d], s[pid := initial])
  {
    hide Wf, KernelThere, SpaceIs, SameView, HandsKept;
    var g2 := Rename(g', d, Root(pid));
    assert Root(pid) !in g'.own;
    RenameOk(g', k, d, Root(pid));
    KernelKept(g', g2, kpd, k);
    forall q | q in cr3 ensures SpaceIs(g'.mem, cr3[q], s[q]) {
      assert IsDir(g, cr3[q]);
      GrownView(g, g', kpd, k, d, cr3[q]);
      SpaceKept(g, g', cr3[q], s[q]);
    }
    AdoptProcs(g, g', cr3, d, pid);
  }

  lemma AdoptProcs(g: Graph, g': Graph, cr3: Procs, d: nat, pid: nat)
    requires ProcsOk(g, cr3) && pid !in cr3 && Grown(g, g', d) && Building(g', d, Dir, 0)
    ensures ProcsOk(Rename(g', d, Root(pid)), cr3[pid := d])
  {
    hide HandsKept;
    var g2 := Rename(g', d, Root(pid));
    assert forall r :: r in g2.own && r != Root(pid) && !r.Slot? ==> r in g.own;
    forall q | q in cr3[pid := d]
      ensures Root(q) in g2.own && g2.own[Root(q)] == cr3[pid := d][q] && IsDir(g2, cr3[pid := d][q])
    {
      if q != pid {
        assert IsDir(g, cr3[q]);
      }
    }
  }

  lemma ProtectedProcs(g: Graph, g': Graph, kpd: nat, k: Kernel, cr3: Procs, s: Spaces)
    requires Good(g, kpd, k) && RwOnly(g, g') && ProcsOk(g, cr3) && Shows(g.mem, cr3, s)
    ensures ProcsOk(g', cr3) && Shows(g'.mem, cr3, s)
  {
    hide Good, SpaceIs, SameView;
    forall q | q in cr3 ensures SameView(g, g', cr3[q], cr3[q]) && IsDir(g', cr3[q]) {
      assert IsDir(g, cr3[q]);
      RwOnlyView(g, g', kpd, k, cr3[q]);
    }
    ShowsKept(g, g', cr3, s);
  }

  // ---------- copy_kpd ----------

  /** The new directory d after the first n words of the kernel's directory were copied. */
  ghost function PartCopied(g: Graph, k: Kernel, d: nat, n: nat): Graph
    requires |k.dir| == WORDS_PER_FRAME && n <= WORDS_PER_FRAME
  {
    g.(mem := g.mem[d := Words(k.dir[..n] + ZeroFrame().ws[n..])])
  }

  lemma {:induction false} PartCopiedOk(g: Graph, kpd: nat, k: Kernel, d: nat, n: nat)
    requires Good(g, kpd, k) && Building(g, d, Dir, 0) && g.mem[d] == ZeroFrame() && n <= WORDS_PER_FRAME
    requires |k.dir| == WORDS_PER_FRAME
    ensures Good(PartCopied(g, k, d, n), kpd, k)
  {
    if n == 0 {
      assert k.dir[..0] + ZeroFrame().ws[0..] == ZeroFrame().ws;
      assert PartCopied(g, k, d, 0).mem == g.mem;
    } else {
      hide Wf, KernelThere, Building;
      PartCopiedOk(g, kpd, k, d, n - 1);
      PartCopiedNext(g, kpd, k, d, n - 1);
    }
  }

  lemma PartCopiedNext(g: Graph, kpd: nat, k: Kernel, d: nat, n: nat)
    requires Building(g, d, Dir, 0) && n < WORDS_PER_FRAME && |k.dir| == WORDS_PER_FRAME
    requires Good(PartCopied(g, k, d, n), kpd, k)
    ensures Good(PartCopied(g, k, d, n + 1), kpd, k)
  {
    hide Wf, KernelThere;
    var s, s' := PartCopied(g, k, d, n), PartCopied(g, k, d, n + 1);
    Known(s, kpd, k);
    assert (k.dir[..n] + ZeroFrame().ws[n..])[n := k.dir[n]] == k.dir[..n + 1] + ZeroFrame().ws[n + 1..];
    assert s' == Rewrite(s, d, n, k.dir[n]);
    assert Ent(s.mem, d, n) == ZERO_WORD;
    NamedSlot(s, k, d, n);
    KernelDirWord(s, kpd, k, d, n);
    RewriteOk(s, k, d, n, k.dir[n]);
    KernelKept(s, s', kpd, k);
  }

  lemma KernelDirWord(s: Graph, kpd: nat, k: Kernel, d: nat, n: nat)
    requires Good(s, kpd, k) && IsDir(s, d) && d in s.at && IsTable(s.mem, d) && n < WORDS_PER_FRAME
    requires |k.dir| == WORDS_PER_FRAME
    requires Slot(d, n) !in s.own
    ensures EntryOk(Rewrite(s, d, n, k.dir[n]), k, d, n) && !Names(k.dir[n])
  {
    hide EntryOk, FrameOk, RefOk, LinkOk;
    assert KernelWord(k.dir[n]);
    SetEntOne(s.mem, d, n, k.dir[n]);
    KernelDirEntry(Rewrite(s, d, n, k.dir[n]), k, d, n);
  }

  lemma KernelDirEntry(g: Graph, k: Kernel, d: nat, n: nat)
    requires IsDir(g, d) && d in g.at && n < |k.dir| && Ent(g.mem, d, n) == k.dir[n]
    requires !Names(k.dir[n]) && Slot(d, n) !in g.own
    ensures EntryOk(g, k, d, n)
  {
  }

  /** copy_kpd: a live directory without a single private page. */
  lemma KpdCopied(g: Graph, g1: Graph, kpd: nat, k: Kernel, d: nat)
    requires Good(g, kpd, k) && Good(g1, kpd, k) && Allocated(g, g1, d, Dir, 0) && kpd in g.mem
    ensures var g' := g1.(mem := g1.mem[d := g.mem[kpd]]);
            && Good(g', kpd, k) && Grown(g, g', d) && Building(g', d, Dir, 0) && LiveDir(g', k, d)
            && SpaceIs(g'.mem, d, map[])
  {
    hide Wf, HandsKept, SpaceIs;
    Known(g, kpd, k);
    Known(g1, kpd, k);
    KpdGrown(g, g1, kpd, k, d);
    KernelOkOf(g, k);
    PartCopiedOk(g1, kpd, k, d, WORDS_PER_FRAME);
    assert k.dir[..WORDS_PER_FRAME] + ZeroFrame().ws[WORDS_PER_FRAME..] == k.dir;
    var g' := g1.(mem := g1.mem[d := g.mem[kpd]]);
    assert g' == PartCopied(g1, k, d, WORDS_PER_FRAME);
    assert forall i :: 0 <= i < WORDS_PER_FRAME ==> Ent(g'.mem, d, i) == k.dir[i];
    NothingMapped(g'.mem, k, d);
  }

  lemma KpdGrown(g: Graph, g1: Graph, kpd: nat, k: Kernel, d: nat)
    requires Good(g, kpd, k) && Good(g1, kpd, k) && Allocated(g, g1, d, Dir, 0) && kpd in g.mem
    ensures Grown(g, g1.(mem := g1.mem[d := g.mem[kpd]]), d)
  {
    hide Good, Grown, Grows, IsTable;
    Known(g1, kpd, k);
    GrowsRefl(g1, d);
    GrownFrom(g, g1, g1, kpd, k, d, Dir, 0);
    GrownRewritten(g, g1, d, g.mem[kpd]);
  }

  lemma GrownRewritten(g: Graph, g': Graph, d: nat, fr: Frame)
    requires Grown(g, g', d)
    ensures Grown(g, g'.(mem := g'.mem[d := fr]), d)
  {
  }

  lemma KernelOkOf(g: Graph, k: Kernel)
    requires Wf(g, k)
    ensures KernelOk(k) && |k.dir| == WORDS_PER_FRAME
  {
    hide EntryOk, FrameOk, RefOk, LinkOk;
  }

  lemma NothingMapped(mem: Memory, k: Kernel, d: nat)
    requires KernelOk(k) && forall i :: 0 <= i < WORDS_PER_FRAME ==> Ent(mem, d, i) == k.dir[i]
    ensures SpaceIs(mem, d, map[])
  {
    forall i, j | 0 <= i < WORDS_PER_FRAME && 0 <= j < WORDS_PER_FRAME ensures View(mem, d, i, j) == ZeroFrame() {
      assert KernelWord(k.dir[i]);
    }
  }

  // ---------- exec and exit ----------

  lemma ExecStep(g: Graph, g': Graph, kpd: nat, k: Kernel, cr3: Procs, s: Spaces, pid: nat)
    requires Good(g, kpd, k) && ProcsOk(g, cr3) && Shows(g.mem, cr3, s) && pid in cr3
    requires Local(g, g', cr3[pid]) && DirClearedTo(g'.mem, cr3[pid], WORDS_PER_FRAME)
    ensures ProcsOk(g', cr3) && Shows(g'.mem, cr3, s[pid := map[]])
  {
    hide Good, SpaceIs, SameView, DirClearedTo;
    KeptOnlyLeaks(g, g');
    ProcsKept(g, g', cr3);
    OwnDirs(g, kpd, k, cr3);
    ClearedSpace(g'.mem, cr3[pid]);
    forall q | q in cr3 && q != pid ensures SpaceIs(g'.mem, cr3[q], s[q]) {
      assert IsDir(g, cr3[q]) && IsDir(g', cr3[q]);
      SpaceKept(g, g', cr3[q], s[q]);
    }
  }

  lemma ClearedSpace(mem: Memory, d: nat)
    requires DirClearedTo(mem, d, WORDS_PER_FRAME)
    ensures SpaceIs(mem, d, map[])
  {
    hide DirClearedTo, View;
    ClearedView(mem, d);
  }

  lemma ExitStep(g: Graph, g': Graph, kpd: nat, k: Kernel, cr3: Procs, s: Spaces, pid: nat)
    requires Good(g, kpd, k) && Good(g', kpd, k) && ProcsOk(g, cr3) && Shows(g.mem, cr3, s) && pid in cr3
    requires Loses(g, g', Root(pid)) && Root(pid) !in g'.own
    ensures ProcsOk(g', cr3 - {pid}) && Shows(g'.mem, cr3 - {pid}, s - {pid})
  {
    hide Good, SpaceIs, SameView;
    Known(g', kpd, k);
    forall q | q in cr3 && q != pid
      ensures Root(q) in g'.own && g'.own[Root(q)] == cr3[q] && IsDir(g', cr3[q]) && SpaceIs(g'.mem, cr3[q], s[q])
    {
      assert IsDir(g, cr3[q]);
      LosesView(g, g', kpd, k, Root(pid), cr3[q]);
      SpaceKept(g, g', cr3[q], s[q]);
    }
  }

  lemma GivenUpProcs(g: Graph, g': Graph, kpd: nat, k: Kernel, cr3: Procs, s: Spaces, pid: nat)
    requires Good(g, kpd, k) && ProcsOk(g, cr3) && Shows(g.mem, cr3, s) && pid in cr3
    requires NoHands(g'.own) && GivenUp(g, g', k, cr3[pid])
    ensures ProcsOk(g', cr3) && Shows(g'.mem, cr3, s)
  {
    hide Good, Shows, SameView, LiveDir;
    SeenByAll(g, g', kpd, k, cr3, cr3[pid]);
    ProcsKept(g, g', cr3);
    ShowsKept(g, g', cr3, s);
  }

  lemma ResolvedProcs(g: Graph, g': Graph, kpd: nat, k: Kernel, cr3: Procs, s: Spaces, pid: nat, i: nat, j: nat)
    requires Good(g, kpd, k) && ProcsOk(g, cr3) && Shows(g.mem, cr3, s) && pid in cr3
    requires NoHands(g'.own) && Resolved(g, g', k, cr3[pid], i, j)
    ensures ProcsOk(g', cr3) && Shows(g'.mem, cr3, s)
  {
    hide Good, Shows, SameView, LiveDir, Writable;
    SeenByAll(g, g', kpd, k, cr3, cr3[pid]);
    KeptOnlyLeaks(g, g');
    ProcsKept(g, g', cr3);
    ShowsKept(g, g', cr3, s);
  }

  lemma KpdStays(g: Graph, g1: Graph, kpd: nat, k: Kernel)
    requires Good(g, kpd, k) && Good(g1, kpd, k)
    ensures kpd in g.mem && kpd in g1.mem && g1.mem[kpd] == g.mem[kpd]
  {
    hide Wf;
  }

  lemma ParentSpace(mem: Memory, cr3: Procs, s: Spaces, pid: nat)
    requires Shows(mem, cr3, s) && pid in cr3
    ensures pid in s && SpaceIs(mem, cr3[pid], s[pid])
  {
  }

  lemma PageShown(mem: Memory, cr3: Procs, s: Spaces, pid: nat, i: nat, j: nat)
    requires Shows(mem, cr3, s) && pid in cr3 && i < WORDS_PER_FRAME && j < WORDS_PER_FRAME
    ensures pid in s && View(mem, cr3[pid], i, j) == PageIn(s[pid], i * WORDS_PER_FRAME + j)
  {
    hide View, PageIn;
    assert SpaceIs(mem, cr3[pid], s[pid]);
  }

  lemma NoHandsNow(g: Graph, cr3: Procs)
    requires ProcsOk(g, cr3)
    ensures NoHands(g.own)
  {
  }

  lemma ResolvedWritable(g: Graph, g': Graph, k: Kernel, d: nat, i: nat, j: nat)
    requires Resolved(g, g', k, d, i, j)
    ensures Writable(g'.mem, d, i, j)
  {
  }

  /** At boot there is no process. */
  lemma NothingYet(g: Graph)
    requires g.own == map[] && Settled(g)
    ensures ProcsOk(g, map[]) && Shows(g.mem, map[], map[])
  {
  }

  // ---------- what the invariant means ----------

  /** The private entries, in live tables or directories, that name f. */
  ghost function EntriesNaming(g: Graph, f: nat): set<Ref> {
    set t, i | t in g.kind && LiveTable(g, t) && 0 <= i < WORDS_PER_FRAME && Names(Ent(g.mem, t, i)) &&
               Ent(g.mem, t, i).frame == f :: Slot(t, i)
  }

  /** Reference counts are exact: a table's count is the number of directory entries naming it, a page's
      the number of table entries naming it (and one if it was left behind), a directory's is 1. */
  lemma CountsExact(g: Graph, kpd: nat, k: Kernel, cr3: Procs, f: nat)
    requires Good(g, kpd, k) && ProcsOk(g, cr3) && f in g.kind
    ensures CountOf(g.client, f) ==
      if g.kind[f].Dir? then 1
      else |EntriesNaming(g, f)| + (if Leaked(f) in g.own then 1 else 0)
    ensures g.kind[f].Tab? ==> Leaked(f) !in g.own
  {
    hide KernelThere, EntryOk, LinkOk, RefOk, KernelOk, EntriesNaming;
    assert FrameOk(g, f);
    if !g.kind[f].Dir? {
      RefsAreEntries(g, kpd, k, cr3, f);
      if Leaked(f) in g.own {
        assert RefsTo(g.own, f) == EntriesNaming(g, f) + {Leaked(f)};
        assert Leaked(f) !in EntriesNaming(g, f) by { OnlySlots(g, f); }
      } else {
        assert RefsTo(g.own, f) == EntriesNaming(g, f);
      }
    }
  }

  lemma OnlySlots(g: Graph, f: nat)
    ensures forall r :: r in EntriesNaming(g, f) ==> r.Slot?
  {
  }

  /** Tables are named by directories and pages by tables, at the place they belong. */
  lemma EntriesBelow(g: Graph, kpd: nat, k: Kernel, f: nat, r: Ref)
    requires Good(g, kpd, k) && r in EntriesNaming(g, f)
    ensures f in g.kind && f in g.at && r.table in g.at
    ensures if g.kind[r.table].Dir? then g.kind[f].Tab? && g.at[f] == r.index
            else g.kind[f].Page? && g.at[f] == g.at[r.table] * WORDS_PER_FRAME + r.index
  {
    hide KernelThere, EntryOk, LinkOk, KernelOk, FrameOk;
    NamedRef(g, kpd, k, r.table, r.index);
    assert RefOk(g, r);
  }

  /** A frame some process can reach, or a page left behind by a process that was ended. */
  ghost predicate InUse(g: Graph, cr3: Procs, f: nat) {
    || (exists pid :: pid in cr3 && cr3[pid] == f)
    || (exists pid, i :: pid in cr3 && 0 <= i < WORDS_PER_FRAME && TableOfProc(g, cr3[pid], i, f))
    || (exists pid, i, j ::
          pid in cr3 && 0 <= i < WORDS_PER_FRAME && 0 <= j < WORDS_PER_FRAME && PageOfProc(g, cr3[pid], i, j, f))
    || Leaked(f) in g.own
  }

  ghost predicate TableOfProc(g: Graph, d: nat, i: nat, f: nat) {
    Names(Ent(g.mem, d, i)) && Ent(g.mem, d, i).frame == f
  }

  ghost predicate PageOfProc(g: Graph, d: nat, i: nat, j: nat, f: nat) {
    Names(Ent(g.mem, d, i)) && TableOfProc(g, Ent(g.mem, d, i).frame, j, f)
  }

  /** Nothing is kept that nobody uses: whatever only an exited or re-executed process used is free. */
  lemma NothingLost(g: Graph, kpd: nat, k: Kernel, cr3: Procs, f: nat)
    requires Good(g, kpd, k) && ProcsOk(g, cr3) && f in g.client && !Fixed(g.client[f])
    ensures InUse(g, cr3, f)
  {
    hide KernelThere, EntryOk, LinkOk, KernelOk, FrameOk;
    Closed(g, k);
    var r := SomeRef(g, kpd, k, f);
    match r
    case Root(pid) =>
      assert pid in cr3 && cr3[pid] == f;
    case Slot(t, j) =>
      RefIsEntry(g, kpd, k, t, j);
      if g.kind[t].Dir? {
        var pid := OwnerOf(g, kpd, k, cr3, t);
        assert TableOfProc(g, cr3[pid], j, f);
      } else {
        var q := SomeRef(g, kpd, k, t);
        RefIsEntry(g, kpd, k, q.table, q.index);
        var pid := OwnerOf(g, kpd, k, cr3, q.table);
        assert PageOfProc(g, cr3[pid], q.index, j, f);
      }
    case Hand(_) => assert false;
    case Leaked(_) =>
  }

  /** A counted frame has a reference, of the kind that fits it. */
  lemma SomeRef(g: Graph, kpd: nat, k: Kernel, f: nat) returns (r: Ref)
    requires Good(g, kpd, k) && NoHands(g.own) && Settled(g) && f in g.kind
    ensures r in g.own && g.own[r] == f && !r.Hand? && (r.Leaked? ==> r == Leaked(f))
    ensures r.Slot? ==> LiveTable(g, r.table) && r.index < WORDS_PER_FRAME
    ensures g.kind[f].Dir? ==> r.Root?
    ensures g.kind[f].Tab? ==> r.Slot? && g.kind[r.table].Dir?
    ensures r.Root? ==> g.kind[f].Dir?
  {
    hide KernelThere, EntryOk, LinkOk, KernelOk;
    assert FrameOk(g, f);
    r :| r in g.own && g.own[r] == f;
    assert RefOk(g, r);
  }

  lemma OwnerOf(g: Graph, kpd: nat, k: Kernel, cr3: Procs, d: nat) returns (pid: nat)
    requires Good(g, kpd, k) && ProcsOk(g, cr3) && IsDir(g, d)
    ensures pid in cr3 && cr3[pid] == d
  {
    hide Good;
    var r := SomeRef(g, kpd, k, d);
    pid := r.pid;
  }

  lemma RefsAreEntries(g: Graph, kpd: nat, k: Kernel, cr3: Procs, f: nat)
    requires Good(g, kpd, k) && ProcsOk(g, cr3) && f in g.kind && !g.kind[f].Dir?
    ensures forall r :: r in RefsTo(g.own, f) <==> r in EntriesNaming(g, f) || (r == Leaked(f) && r in g.own)
    ensures g.kind[f].Tab? ==> Leaked(f) !in g.own
  {
    hide KernelThere, FrameOk, EntryOk, LinkOk, KernelOk;
    forall r ensures r in RefsTo(g.own, f) <==> r in EntriesNaming(g, f) || (r == Leaked(f) && r in g.own) {
      if r in g.own {
        assert RefOk(g, r);
      }
      if r.Slot? && r.index < WORDS_PER_FRAME && LiveTable(g, r.table) {
        RefIsEntry(g, kpd, k, r.table, r.index);
      }
    }
    if Leaked(f) in g.own {
      assert RefOk(g, Leaked(f));
    }
  }

  lemma RefIsEntry(g: Graph, kpd: nat, k: Kernel, t: nat, i: nat)
    requires Good(g, kpd, k) && LiveTable(g, t) && i < WORDS_PER_FRAME
    ensures Slot(t, i) in g.own <==> Names(Ent(g.mem, t, i))
    ensures Slot(t, i) in g.own ==> g.own[Slot(t, i)] == Ent(g.mem, t, i).frame
  {
    hide Wf;
    NamedSlot(g, k, t, i);
  }

  /** Writable implies exclusive: what a writable entry names has a count of one, and below a read-only
      directory entry nothing is writable. */
  lemma WritableIsCountedOnce(g: Graph, kpd: nat, k: Kernel, t: nat, i: nat)
    requires Good(g, kpd, k) && LiveTable(g, t) && i < WORDS_PER_FRAME && Names(Ent(g.mem, t, i))
    ensures Ent(g.mem, t, i).rw ==> CountOf(g.client, Ent(g.mem, t, i).frame) == 1
    ensures g.kind[t].Dir? && !Ent(g.mem, t, i).rw ==> NothingWritable(g.mem, Ent(g.mem, t, i).frame)
  {
    hide KernelThere, LinkOk, KernelOk, RefOk;
    NamedRef(g, kpd, k, t, i);
    NamedFrame(g, k, Slot(t, i));
    assert FrameOk(g, t) && EntryOk(g, k, t, i);
    if Ent(g.mem, t, i).rw {
      assert RefsTo(g.own, Ent(g.mem, t, i).frame) == {Slot(t, i)};
    }
  }
}
