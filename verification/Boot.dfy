/** The kernel's own page tables (global_init, kernel/vmm.cc), from which every run starts. */
module Boot {
  import opened Frames
  import opened PhysMem
  import opened PageGraph
  import opened Vmm

  /** G, RW and P: the flags of every kernel mapping. */
  function KernelEntryFor(f: nat): Word {
    Word(f, true, true, false, true, false, 0)
  }

  ghost predicate AllKernelWords(ws: seq<Word>) {
    |ws| == WORDS_PER_FRAME && forall i :: 0 <= i < WORDS_PER_FRAME ==> KernelWord(ws[i])
  }

  /** The kernel's directory is in frame kpd and its tables are in frames of their own. */
  ghost predicate Booting(mem: Memory, client: Clients, kpd: nat, k: Kernel) {
    && AllKernelWords(k.dir) && |k.tabs| == WORDS_PER_FRAME
    && (forall i :: 0 <= i < WORDS_PER_FRAME ==> AllKernelWords(k.tabs[i]))
    && KeptFrame(mem, client, kpd, k.dir)
    && (forall i :: 0 <= i < WORDS_PER_FRAME && KDir(k, i) ==>
        KeptFrame(mem, client, k.dir[i].frame, k.tabs[i]) && k.dir[i].frame != kpd)
    && (forall i, j :: 0 <= i < j < WORDS_PER_FRAME && KDir(k, i) && KDir(k, j) ==> k.dir[i].frame != k.dir[j].frame)
    && (forall f :: f in client ==> Fixed(client[f]))
  }

  ghost predicate KeptFrame(mem: Memory, client: Clients, f: nat, ws: seq<Word>) {
    f in client && Fixed(client[f]) && f in mem && mem[f] == Words(ws)
  }

  /** Frame f is in use by no table yet. */
  ghost predicate Spare(client: Clients, kpd: nat, k: Kernel, f: nat) {
    f in client && f != kpd && forall i :: 0 <= i < WORDS_PER_FRAME && KDir(k, i) ==> k.dir[i].frame != f
  }

  /** Table i, other than x, maps something. */
  ghost predicate NonEmptyBut(k: Kernel, x: int) {
    forall i :: 0 <= i < WORDS_PER_FRAME && KDir(k, i) && i != x ==> MapsSome(k, i)
  }

  ghost predicate MapsSome(k: Kernel, i: nat) {
    exists j :: 0 <= j < WORDS_PER_FRAME && KMaps(k, i, j)
  }

  /** The kernel maps pages lo up to n and those in extra, each to the frame of the same number. */
  ghost predicate Identity(k: Kernel, lo: nat, n: nat, extra: set<nat>) {
    forall i, j :: 0 <= i < WORDS_PER_FRAME && 0 <= j < WORDS_PER_FRAME ==> IdentityAt(k, lo, n, extra, i, j)
  }

  ghost predicate IdentityAt(k: Kernel, lo: nat, n: nat, extra: set<nat>, i: nat, j: nat) {
    var page := i * WORDS_PER_FRAME + j;
    && (KMaps(k, i, j) <==> lo <= page < n || page in extra)
    && (KMaps(k, i, j) ==> k.tabs[i][j] == Word(page, true, true, false, true, false, 0))
  }

  /** The directory entries from n on, other than those for extra pages, are absent. */
  ghost predicate DirsBelow(k: Kernel, n: nat) {
    forall i :: n <= i < WORDS_PER_FRAME ==> !KDir(k, i)
  }

  ghost function Linked(k: Kernel, i: nat, p: nat, tab: seq<Word>): Kernel
    requires i < |k.dir| && i < |k.tabs|
  {
    Kernel(k.dir[i := KernelEntryFor(p)], k.tabs[i := tab])
  }

  ghost function WithEntry(k: Kernel, i: nat, j: nat, w: Word): Kernel
    requires i < |k.tabs| && j < |k.tabs[i]|
  {
    k.(tabs := k.tabs[i := k.tabs[i][j := w]])
  }

  ghost function EmptyKernel(): Kernel {
    Kernel(ZeroFrame().ws, seq(WORDS_PER_FRAME, _ => ZeroFrame().ws))
  }

  /** Clients keep their frames' content. */
  lemma BootingKept(mem: Memory, client: Clients, mem': Memory, client': Clients, kpd: nat, k: Kernel)
    requires Booting(mem, client, kpd, k)
    requires forall f :: f in client ==> f in client' && client'[f] == client[f]
    requires forall f :: f in client && f in mem ==> f in mem' && mem'[f] == mem[f]
    requires forall f :: f in client' ==> Fixed(client'[f])
    ensures Booting(mem', client', kpd, k)
  {
    hide KDir, AllKernelWords;
  }

  lemma LinkedOk(mem: Memory, client: Clients, kpd: nat, k: Kernel, i: nat, p: nat, tab: seq<Word>)
    requires Booting(mem, client, kpd, k) && i < WORDS_PER_FRAME && !KDir(k, i)
    requires Spare(client, kpd, k, p) && KeptFrame(mem, client, p, tab) && AllKernelWords(tab)
    ensures Booting(mem[kpd := Words(k.dir[i := KernelEntryFor(p)])], client, kpd, Linked(k, i, p, tab))
  {
  }

  lemma WithEntryOk(mem: Memory, client: Clients, kpd: nat, k: Kernel, i: nat, j: nat, w: Word)
    requires Booting(mem, client, kpd, k) && i < WORDS_PER_FRAME && KDir(k, i) && j < WORDS_PER_FRAME && KernelWord(w)
    ensures Booting(mem[k.dir[i].frame := Words(k.tabs[i][j := w])], client, kpd, WithEntry(k, i, j, w))
  {
  }

  /** A frame that nobody has is spare. */
  lemma FreshIsSpare(mem: Memory, client: Clients, client': Clients, kpd: nat, k: Kernel, p: nat)
    requires Booting(mem, client, kpd, k) && p !in client && p in client'
    ensures Spare(client', kpd, k, p)
  {
  }

  lemma PageNumberOnce(i: nat, j: nat, n: nat, m: nat)
    requires j < WORDS_PER_FRAME && m < WORDS_PER_FRAME
    ensures i * WORDS_PER_FRAME + j == n * WORDS_PER_FRAME + m <==> i == n && j == m
  {
  }

  /** Everything but the page tables of the kernel is in place. */
  class KernelTables {
    const pm: Allocator
    const kpd: nat
    ghost var k: Kernel

    ghost predicate Inv()
      reads this, pm, pm.refs
    {
      Valid(pm.Snap()) && Booting(pm.mem, pm.client, kpd, k)
    }

    constructor (pm: Allocator, kpd: nat)
      requires Valid(pm.Snap()) && pm.client == map[kpd := Held] && kpd in pm.mem && pm.mem[kpd] == ZeroFrame()
      ensures Inv() && this.pm == pm && this.kpd == kpd && k == EmptyKernel()
    {
      this.pm := pm;
      this.kpd := kpd;
      k := EmptyKernel();
    }

    /** unsafe_alloc_frame: a zeroed frame without a count. */
    method NewFrame() returns (r: Outcome<nat>)
      requires Inv()
      modifies pm
      ensures r.Panicked? ==> pm.Stuck()
      ensures r.Running? ==> Inv() && r.value !in old(pm.client) && pm.client == old(pm.client)[r.value := Held]
      ensures r.Running? ==> Spare(pm.client, kpd, k, r.value) && r.value in pm.mem && pm.mem[r.value] == ZeroFrame()
    {
      hide Valid, Booting;
      TakenKeeps(pm.Snap());
      var p :- pm.UnsafeAllocFrame();
      FixedClients(old(pm.mem), old(pm.client), kpd, k);
      BootingKept(old(pm.mem), old(pm.client), pm.mem, pm.client, kpd, k);
      FreshIsSpare(old(pm.mem), old(pm.client), pm.client, kpd, k, p);
      return Running(p);
    }

    /** alloc_frame: a zeroed frame with a count of one, which the kernel keeps for good. */
    method NewCountedFrame() returns (r: Outcome<nat>)
      requires Inv()
      modifies pm, pm.refs
      ensures r.Panicked? ==> pm.Stuck()
      ensures r.Running? ==> Inv() && r.value !in old(pm.client) && pm.client == old(pm.client)[r.value := Pinned]
      ensures r.Running? ==> Spare(pm.client, kpd, k, r.value) && r.value in pm.mem && pm.mem[r.value] == ZeroFrame()
    {
      hide Valid, Booting;
      var p :- pm.AllocFrame();
      pm.Pin(p);
      FixedClients(old(pm.mem), old(pm.client), kpd, k);
      BootingKept(old(pm.mem), old(pm.client), pm.mem, pm.client, kpd, k);
      FreshIsSpare(old(pm.mem), old(pm.client), pm.client, kpd, k, p);
      return Running(p);
    }

    /** kpd[i] = p | kFlags */
    method Link(i: nat, p: nat, ghost tab: seq<Word>)
      requires Inv() && i < WORDS_PER_FRAME && !KDir(k, i)
      requires Spare(pm.client, kpd, k, p) && KeptFrame(pm.mem, pm.client, p, tab) && AllKernelWords(tab)
      modifies this, pm
      ensures Inv() && k == Linked(old(k), i, p, tab)
    {
      hide Valid;
      LinkedOk(pm.mem, pm.client, kpd, k, i, p, tab);
      pm.WriteWord(kpd, i, KernelEntryFor(p));
      k := Linked(k, i, p, tab);
    }

    /** An entry of one of the kernel's tables is written. */
    method SetEntry(i: nat, j: nat, w: Word)
      requires Inv() && i < WORDS_PER_FRAME && KDir(k, i) && j < WORDS_PER_FRAME && KernelWord(w)
      modifies this, pm
      ensures Inv() && k == WithEntry(old(k), i, j, w)
    {
      hide Valid;
      WithEntryOk(pm.mem, pm.client, kpd, k, i, j, w);
      var pt := pm.mem[kpd].ws[i].frame;
      pm.WriteWord(pt, j, w);
      k := WithEntry(k, i, j, w);
    }

    /** The inner loop: a table that maps 4 MB to the frames of the same numbers. */
    method FullTable(pdi: nat) returns (r: Outcome<nat>)
      requires Inv() && pdi < WORDS_PER_FRAME
      modifies pm
      ensures r.Panicked? ==> pm.Stuck()
      ensures r.Running? ==> Inv() && Spare(pm.client, kpd, k, r.value)
      ensures r.Running? ==> KeptFrame(pm.mem, pm.client, r.value, IdentityTable(pdi))
    {
      hide Valid, Booting;
      var pt :- NewFrame();
      var pti := 0;
      while pti < WORDS_PER_FRAME
        invariant pti <= WORDS_PER_FRAME && Inv() && Spare(pm.client, kpd, k, pt)
        invariant pm.client == old(pm.client)[pt := Held]
        invariant pt in pm.mem && pm.mem[pt].Words? && |pm.mem[pt].ws| == WORDS_PER_FRAME
        invariant forall j :: 0 <= j < pti ==> pm.mem[pt].ws[j] == IdentityTable(pdi)[j]
      {
        ghost var mem := pm.mem;
        pm.WriteWord(pt, pti, KernelEntryFor(pdi * WORDS_PER_FRAME + pti));
        SpareWritten(mem, pm.mem, pm.client, kpd, k, pt);
        pti := pti + 1;
      }
      assert pm.mem[pt].ws == IdentityTable(pdi);
      return Running(pt);
    }

    /** map, with the kernel's flags and a page mapped to the frame of the same number. */
    method MapKernel(page: nat, ghost lo: nat, ghost n: nat, ghost extra: set<nat>, ghost x: int)
      returns (r: Outcome<()>)
      requires Inv() && page < WORDS_PER_FRAME * WORDS_PER_FRAME && Identity(k, lo, n, extra)
      requires NonEmptyBut(k, x) && (x == -1 || x == page / WORDS_PER_FRAME)
      modifies this, pm, pm.refs
      ensures r.Panicked? ==> pm.Stuck()
      ensures r.Running? ==> Inv() && Identity(k, lo, n, extra + {page}) && NonEmptyBut(k, -1)
      ensures r.Running? ==> forall i :: i != page / WORDS_PER_FRAME ==> (KDir(k, i) <==> old(KDir(k, i)))
    {
      hide Valid, Booting, KMaps, Identity, NonEmptyBut;
      var i, j := page / WORDS_PER_FRAME, page % WORDS_PER_FRAME;
      BootShape(pm.mem, pm.client, kpd, k);
      if !pm.mem[kpd].ws[i].p {
        ghost var k0 := k;
        var p :- NewCountedFrame();
        ZeroIsKernel();
        Link(i, p, ZeroFrame().ws);
        LinkedEmpty(k0, lo, n, extra, i, p, x);
        BootShape(pm.mem, pm.client, kpd, k);
      }
      ghost var k1 := k;
      SetEntry(i, j, KernelEntryFor(page));
      EntryMapped(k1, lo, n, extra, i, j, if KDir(old(k), i) then x else i);
      return Running(());
    }

    /** global_init: memory is memPages frames, of which the first 4 MB at least exist. */
    method GlobalInit(memPages: nat, localApic: nat, ioApic: nat) returns (r: Outcome<()>)
      requires Inv() && k == EmptyKernel()
      requires WORDS_PER_FRAME <= memPages < WORDS_PER_FRAME * WORDS_PER_FRAME
      requires localApic < WORDS_PER_FRAME * WORDS_PER_FRAME && ioApic < WORDS_PER_FRAME * WORDS_PER_FRAME
      modifies this, pm, pm.refs
      ensures r.Panicked? ==> pm.Stuck()
      ensures r.Running? ==> Inv() && KernelOk(k) && Identity(k, 1, memPages, {localApic, ioApic})
    {
      hide Valid, Booting, KMaps, Identity, NonEmptyBut, DirsBelow, KernelOk;
      NothingLinked();
      var pdi := 0;
      while pdi < memPages / WORDS_PER_FRAME
        invariant pdi <= memPages / WORDS_PER_FRAME && Inv()
        invariant Identity(k, 0, pdi * WORDS_PER_FRAME, {}) && NonEmptyBut(k, -1) && DirsBelow(k, pdi)
        invariant pdi > 0 ==> KDir(k, 0)
      {
        ghost var k0 := k;
        BootShape(pm.mem, pm.client, kpd, k);
        BelowAbsent(k, pdi);
        var pt :- FullTable(pdi);
        IdentityIsKernel(pdi);
        Link(pdi, pt, IdentityTable(pdi));
        LinkedFull(k0, pdi, pt);
        pdi := pdi + 1;
      }
      ghost var k1 := k;
      BootShape(pm.mem, pm.client, kpd, k);
      SetEntry(0, 0, ZERO_WORD);
      NullUnmapped(k1, pdi * WORDS_PER_FRAME, pdi);
      var page := pdi * WORDS_PER_FRAME;
      if page < memPages {
        ghost var k2 := k;
        BelowAbsent(k, pdi);
        var p :- NewFrame();
        ZeroIsKernel();
        Link(pdi, p, ZeroFrame().ws);
        LinkedEmpty(k2, 1, page, {}, pdi, p, -1);
        while page < memPages
          invariant pdi * WORDS_PER_FRAME <= page <= memPages && Inv()
          invariant Identity(k, 1, page, {})
          invariant NonEmptyBut(k, if page == pdi * WORDS_PER_FRAME then pdi else -1)
        {
          var _ :- MapKernel(page, 1, page, {}, if page == pdi * WORDS_PER_FRAME then pdi else -1);
          IdentityNext(k, page);
          page := page + 1;
        }
      }
      var _ :- MapKernel(localApic, 1, memPages, {}, -1);
      var _ :- MapKernel(ioApic, 1, memPages, {} + {localApic}, -1);
      assert {} + {localApic} + {ioApic} == {localApic, ioApic};
      BootDone(pm.mem, pm.client, kpd, k);
      return Running(());
    }

    /** The kernel's tables are ready for processes. */
    method Start() returns (vmm: Vmm)
      requires Inv() && KernelOk(k)
      ensures fresh(vmm) && vmm.Inv() && vmm.own == map[] && vmm.kind == map[]
      ensures vmm.pm == pm && vmm.kpd == kpd && vmm.k == k
    {
      hide Valid, KernelOk;
      vmm := new Vmm(pm, kpd, k);
    }
  }

  // ---------- facts about the kernel's tables ----------

  function IdentityTable(pdi: nat): (ws: seq<Word>)
    ensures |ws| == WORDS_PER_FRAME
    ensures forall j :: 0 <= j < WORDS_PER_FRAME ==> ws[j] == KernelEntryFor(pdi * WORDS_PER_FRAME + j)
  {
    seq(WORDS_PER_FRAME, (j: nat) => KernelEntryFor(pdi * WORDS_PER_FRAME + j))
  }

  lemma FixedClients(mem: Memory, client: Clients, kpd: nat, k: Kernel)
    requires Booting(mem, client, kpd, k)
    ensures forall f :: f in client ==> Fixed(client[f])
  {
  }

  lemma SpareWritten(mem: Memory, mem': Memory, client: Clients, kpd: nat, k: Kernel, p: nat)
    requires Booting(mem, client, kpd, k) && Spare(client, kpd, k, p)
    requires forall f :: f in mem && f != p ==> f in mem' && mem'[f] == mem[f]
    ensures Booting(mem', client, kpd, k)
  {
  }

  lemma BootShape(mem: Memory, client: Clients, kpd: nat, k: Kernel)
    requires Booting(mem, client, kpd, k)
    ensures Shaped(k)
    ensures kpd in mem && mem[kpd] == Words(k.dir)
  {
  }

  lemma ZeroIsKernel()
    ensures AllKernelWords(ZeroFrame().ws)
  {
  }

  lemma IdentityIsKernel(pdi: nat)
    ensures AllKernelWords(IdentityTable(pdi))
  {
  }

  ghost predicate Shaped(k: Kernel) {
    |k.dir| == WORDS_PER_FRAME && |k.tabs| == WORDS_PER_FRAME &&
    forall i :: 0 <= i < WORDS_PER_FRAME ==> |k.tabs[i]| == WORDS_PER_FRAME
  }

  lemma LinkedEmpty(k: Kernel, lo: nat, n: nat, extra: set<nat>, i: nat, p: nat, x: int)
    requires Shaped(k) && i < WORDS_PER_FRAME && !KDir(k, i) && Identity(k, lo, n, extra) && NonEmptyBut(k, x)
    requires x == -1 || x == i
    ensures var k' := Linked(k, i, p, ZeroFrame().ws);
            KDir(k', i) && Identity(k', lo, n, extra) && NonEmptyBut(k', i)
  {
    var k' := Linked(k, i, p, ZeroFrame().ws);
    forall a, b | 0 <= a < WORDS_PER_FRAME && 0 <= b < WORDS_PER_FRAME ensures IdentityAt(k', lo, n, extra, a, b) {
      assert IdentityAt(k, lo, n, extra, a, b);
    }
    forall a | 0 <= a < WORDS_PER_FRAME && KDir(k', a) && a != i ensures MapsSome(k', a) {
      assert MapsSome(k, a);
      var b :| 0 <= b < WORDS_PER_FRAME && KMaps(k, a, b);
      assert KMaps(k', a, b);
    }
  }

  lemma EntryMapped(k: Kernel, lo: nat, n: nat, extra: set<nat>, i: nat, j: nat, x: int)
    requires Shaped(k) && i < WORDS_PER_FRAME && j < WORDS_PER_FRAME && KDir(k, i)
    requires Identity(k, lo, n, extra) && NonEmptyBut(k, x) && (x == -1 || x == i)
    ensures var k' := WithEntry(k, i, j, KernelEntryFor(i * WORDS_PER_FRAME + j));
            Identity(k', lo, n, extra + {i * WORDS_PER_FRAME + j}) && NonEmptyBut(k', -1)
  {
    var page := i * WORDS_PER_FRAME + j;
    var k' := WithEntry(k, i, j, KernelEntryFor(page));
    forall a, b | 0 <= a < WORDS_PER_FRAME && 0 <= b < WORDS_PER_FRAME
      ensures IdentityAt(k', lo, n, extra + {page}, a, b)
    {
      PageNumberOnce(a, b, i, j);
      assert IdentityAt(k, lo, n, extra, a, b);
    }
    assert KMaps(k', i, j);
    forall a | 0 <= a < WORDS_PER_FRAME && KDir(k', a) ensures MapsSome(k', a) {
      if a != i {
        assert MapsSome(k, a);
        var b :| 0 <= b < WORDS_PER_FRAME && KMaps(k, a, b);
        assert KMaps(k', a, b);
      }
    }
  }

  lemma LinkedFull(k: Kernel, pdi: nat, p: nat)
    requires Shaped(k) && pdi < WORDS_PER_FRAME && Identity(k, 0, pdi * WORDS_PER_FRAME, {}) && NonEmptyBut(k, -1)
    requires DirsBelow(k, pdi)
    ensures var k' := Linked(k, pdi, p, IdentityTable(pdi));
            && Identity(k', 0, (pdi + 1) * WORDS_PER_FRAME, {}) && NonEmptyBut(k', -1) && DirsBelow(k', pdi + 1)
            && (pdi > 0 && KDir(k, 0) ==> KDir(k', 0)) && KDir(k', pdi)
  {
    var k' := Linked(k, pdi, p, IdentityTable(pdi));
    var n := (pdi + 1) * WORDS_PER_FRAME;
    forall a, b | 0 <= a < WORDS_PER_FRAME && 0 <= b < WORDS_PER_FRAME ensures IdentityAt(k', 0, n, {}, a, b) {
      assert IdentityAt(k, 0, pdi * WORDS_PER_FRAME, {}, a, b);
    }
    assert KMaps(k', pdi, 0);
    forall a | pdi < a < WORDS_PER_FRAME ensures !KDir(k', a) {
      assert !KDir(k, a);
    }
    forall a | 0 <= a < WORDS_PER_FRAME && KDir(k', a) ensures MapsSome(k', a) {
      if a != pdi {
        assert MapsSome(k, a);
        var b :| 0 <= b < WORDS_PER_FRAME && KMaps(k, a, b);
        assert KMaps(k', a, b);
      }
    }
  }

  lemma NothingLinked()
    ensures Identity(EmptyKernel(), 0, 0, {}) && NonEmptyBut(EmptyKernel(), -1) && DirsBelow(EmptyKernel(), 0)
  {
  }

  lemma BelowAbsent(k: Kernel, n: nat)
    requires DirsBelow(k, n)
    ensures !KDir(k, n) || n >= WORDS_PER_FRAME
  {
  }

  /** The null page is taken out of the first table, which still maps the others. */
  lemma NullUnmapped(k: Kernel, n: nat, m: nat)
    requires Shaped(k) && KDir(k, 0) && Identity(k, 0, n, {}) && NonEmptyBut(k, -1) && n >= WORDS_PER_FRAME
    requires DirsBelow(k, m)
    ensures var k' := WithEntry(k, 0, 0, ZERO_WORD);
            Identity(k', 1, n, {}) && NonEmptyBut(k', -1) && DirsBelow(k', m)
  {
    var k' := WithEntry(k, 0, 0, ZERO_WORD);
    forall a, b | 0 <= a < WORDS_PER_FRAME && 0 <= b < WORDS_PER_FRAME ensures IdentityAt(k', 1, n, {}, a, b) {
      PageNumberOnce(a, b, 0, 0);
      assert IdentityAt(k, 0, n, {}, a, b);
    }
    assert IdentityAt(k', 1, n, {}, 0, 1);
    forall a | m <= a < WORDS_PER_FRAME ensures !KDir(k', a) {
      assert !KDir(k, a);
    }
    forall a | 0 <= a < WORDS_PER_FRAME && KDir(k', a) ensures MapsSome(k', a) {
      if a == 0 {
        assert KMaps(k', 0, 1);
      } else {
        assert MapsSome(k, a);
        var b :| 0 <= b < WORDS_PER_FRAME && KMaps(k, a, b);
        assert KMaps(k', a, b);
      }
    }
  }

  lemma IdentityNext(k: Kernel, page: nat)
    requires Identity(k, 1, page, {} + {page}) && page >= 1
    ensures Identity(k, 1, page + 1, {})
  {
    var n := page + 1;
    forall a, b | 0 <= a < WORDS_PER_FRAME && 0 <= b < WORDS_PER_FRAME ensures IdentityAt(k, 1, n, {}, a, b) {
      assert IdentityAt(k, 1, page, {} + {page}, a, b);
    }
  }

  lemma BootDone(mem: Memory, client: Clients, kpd: nat, k: Kernel)
    requires Booting(mem, client, kpd, k) && NonEmptyBut(k, -1)
    ensures KernelOk(k)
  {
    forall i | 0 <= i < WORDS_PER_FRAME ensures KernelTableOk(k.dir[i], k.tabs[i]) {
      if k.dir[i].p {
        assert MapsSome(k, i);
        var j :| 0 <= j < WORDS_PER_FRAME && KMaps(k, i, j);
        assert k.tabs[i][j].p;
      }
    }
  }
}
