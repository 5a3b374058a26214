/** Runs of processes over copy-on-write address spaces (kernel/process.cc, kernel/vmm.cc). */
module Machine {
  import opened Frames
  import opened PhysMem
  import opened PageGraph
  import opened VmmSteps
  import opened DirSteps
  import opened DropSteps
  import opened ProtectSteps
  import opened ClearSteps
  import opened MapSteps
  import opened Mmu
  import opened FaultSteps
  import opened EagerCopy
  import opened ProcSteps
  import opened Vmm
  import opened Boot
  import opened History

  class Machine {
    const vmm: Vmm
    var cr3: Procs

    ghost predicate Inv()
      reads this, vmm, vmm.pm, vmm.pm.refs
    {
      vmm.Inv() && ProcsOk(vmm.G(), cr3)
    }

    /** The processes see exactly the spaces s. */
    ghost predicate Refines(s: Spaces)
      reads this, vmm, vmm.pm
    {
      Shows(vmm.pm.mem, cr3, s)
    }

    constructor (vmm: Vmm)
      requires vmm.Inv() && vmm.own == map[] && vmm.kind == map[]
      ensures Inv() && Refines(map[]) && this.vmm == vmm
    {
      this.vmm := vmm;
      cr3 := map[];
      new;
      NothingYet(vmm.G());
    }

    /** A new process with an empty address space. */
    method Create(pid: nat, ghost s: Spaces) returns (r: Outcome<()>)
      requires Inv() && Refines(s) && pid !in cr3
      modifies this, vmm, vmm.pm, vmm.pm.refs
      ensures r.Panicked? ==> vmm.pm.Stuck()
      ensures r.Running? ==> Inv() && Refines(s[pid := map[]])
    {
      hide Valid, Good, Shows, ProcsOk, SpaceIs, Grown, Building, LiveDir;
      ghost var g := vmm.G();
      var d :- vmm.CopyKpd();
      ghost var g1 := vmm.G();
      vmm.Adopt(d, pid);
      cr3 := cr3[pid := d];
      AdoptStep(g, g1, vmm.kpd, vmm.k, old(cr3), s, d, pid, map[]);
      return Running(());
    }

    /** fork: the parent is write-protected and the child shares what it can. */
    method Fork(parent: nat, child: nat, ghost s: Spaces) returns (r: Outcome<()>)
      requires Inv() && Refines(s) && parent in cr3 && child !in cr3 && parent in s
      modifies this, vmm, vmm.pm, vmm.pm.refs
      ensures r.Panicked? ==> vmm.pm.Stuck()
      ensures r.Running? ==> Inv() && Refines(s[child := s[parent]])
    {
      hide Valid, Good, Shows, ProcsOk, SpaceIs, Grown, Building, LiveDir, RwOnly, SameView, CopiedDirWord;
      ghost var g := vmm.G();
      ProcLive(g, vmm.kpd, vmm.k, cr3, parent);
      vmm.WriteProtect(cr3[parent]);
      ghost var g1 := vmm.G();
      ProtectedProcs(g, g1, vmm.kpd, vmm.k, cr3, s);
      var d :- vmm.CopyPd(cr3[parent]);
      ghost var g2 := vmm.G();
      ParentSpace(g1.mem, cr3, s, parent);
      SpaceCopied(g1, g2, cr3[parent], d, s[parent]);
      vmm.Adopt(d, child);
      cr3 := cr3[child := d];
      AdoptStep(g1, g2, vmm.kpd, vmm.k, old(cr3), s, d, child, s[parent]);
      return Running(());
    }

    /** exec, as far as memory goes: the address space becomes empty. */
    method Exec(pid: nat, ghost s: Spaces)
      requires Inv() && Refines(s) && pid in cr3
      modifies this, vmm, vmm.pm, vmm.pm.refs
      ensures Inv() && Refines(s[pid := map[]])
    {
      hide Valid, Good, Shows, SpaceIs, LiveDir, Local, DirClearedTo;
      ghost var g := vmm.G();
      ProcLive(g, vmm.kpd, vmm.k, cr3, pid);
      vmm.ClearPd(cr3[pid]);
      ExecStep(g, vmm.G(), vmm.kpd, vmm.k, cr3, s, pid);
    }

    /** exit: the process and its address space go. */
    method Exit(pid: nat, ghost s: Spaces)
      requires Inv() && Refines(s) && pid in cr3
      modifies this, vmm, vmm.pm, vmm.pm.refs
      ensures Inv() && Refines(s - {pid}) && cr3 == old(cr3) - {pid}
    {
      hide Valid, Good, Shows, SpaceIs, Loses;
      ghost var g := vmm.G();
      vmm.DestroyPd(cr3[pid], pid);
      cr3 := cr3 - {pid};
      ExitStep(g, vmm.G(), vmm.kpd, vmm.k, old(cr3), s, pid);
    }

    /** A user access by process pid, faulting at most once: it reaches a frame or ends the process. */
    method Reach(pid: nat, va: Address, write: bool, ghost s: Spaces) returns (r: Outcome<Walk>)
      requires Inv() && Refines(s) && pid in cr3
      modifies this, vmm, vmm.pm, vmm.pm.refs
      ensures r.Panicked? ==> vmm.pm.Stuck()
      ensures r.Running? ==> Inv() && (r.value.Allowed? <==> Legal(vmm.k, va))
      ensures r.Running? && r.value.Allowed? ==> Refines(s) && cr3 == old(cr3)
      ensures r.Running? && r.value.Allowed? ==>
        Translate(vmm.pm.mem, cr3[pid], Pdi(va), Pti(va), Access(write, true)) == r.value
      ensures r.Running? && r.value.Fault? ==> Refines(s - {pid})
    {
      hide Valid, Good, Shows, ProcsOk, LiveDir, Translate, Pdi, Pti, KMaps, Resolved, GivenUp, NoHands;
      var acc := Access(write, true);
      ghost var g := vmm.G();
      NoHandsNow(g, cr3);
      Indices(va);
      ProcLive(g, vmm.kpd, vmm.k, cr3, pid);
      var pd := cr3[pid];
      var walk := Translate(vmm.pm.mem, pd, Pdi(va), Pti(va), acc);
      if walk.Allowed? {
        AllowedPage(g, vmm.kpd, vmm.k, pd, Pdi(va), Pti(va), write);
        return Running(walk);
      }
      var verdict :- vmm.PageFault(pd, va, walk.code, acc);
      if verdict == Exited {
        GivenUpProcs(g, vmm.G(), vmm.kpd, vmm.k, cr3, s, pid);
        Exit(pid, s);
        return Running(walk);
      }
      ResolvedProcs(g, vmm.G(), vmm.kpd, vmm.k, cr3, s, pid, Pdi(va), Pti(va));
      ResolvedWritable(g, vmm.G(), vmm.k, pd, Pdi(va), Pti(va));
      WritableAllowed(vmm.pm.mem, pd, Pdi(va), Pti(va), acc);
      return Running(Translate(vmm.pm.mem, pd, Pdi(va), Pti(va), acc));
    }

    /** A user program reads a word. */
    method Load(pid: nat, va: Address, ghost s: Spaces) returns (r: Outcome<Reply>)
      requires Inv() && Refines(s) && pid in cr3 && pid in s
      modifies this, vmm, vmm.pm, vmm.pm.refs
      ensures r.Panicked? ==> vmm.pm.Stuck()
      ensures r.Running? ==> Inv()
      ensures r.Running? && Legal(vmm.k, va) ==>
        Refines(s) && r.value == Value(WordOf(PageIn(s[pid], va / 0x1000), WordIndex(va)))
      ensures r.Running? && !Legal(vmm.k, va) ==> Refines(s - {pid}) && r.value == Killed
    {
      hide Valid, Good, Shows, ProcsOk, LiveDir, Translate, Pdi, Pti, Legal;
      Indices(va);
      var walk :- Reach(pid, va, false, s);
      if walk.Fault? {
        return Running(Killed);
      }
      ghost var g := vmm.G();
      ProcLive(g, vmm.kpd, vmm.k, cr3, pid);
      AllowedPage(g, vmm.kpd, vmm.k, cr3[pid], Pdi(va), Pti(va), false);
      PageShown(g.mem, cr3, s, pid, Pdi(va), Pti(va));
      return Running(Value(vmm.pm.mem[walk.frame].ws[WordIndex(va)]));
    }

    /** A user program writes a word. */
    method Store(pid: nat, va: Address, w: Word, ghost s: Spaces) returns (r: Outcome<Reply>)
      requires Inv() && Refines(s) && pid in cr3 && pid in s
      modifies this, vmm, vmm.pm, vmm.pm.refs
      ensures r.Panicked? ==> vmm.pm.Stuck()
      ensures r.Running? ==> Inv()
      ensures r.Running? && Legal(vmm.k, va) ==>
        Refines(s[pid := Stored(s[pid], va / 0x1000, WordIndex(va), w)]) && r.value == Done
      ensures r.Running? && !Legal(vmm.k, va) ==> Refines(s - {pid}) && r.value == Killed
    {
      hide Valid, Good, Shows, ProcsOk, LiveDir, Translate, Pdi, Pti, Legal, Stored, Writable;
      Indices(va);
      var walk :- Reach(pid, va, true, s);
      if walk.Fault? {
        return Running(Killed);
      }
      ghost var g := vmm.G();
      ProcLive(g, vmm.kpd, vmm.k, cr3, pid);
      AllowedPage(g, vmm.kpd, vmm.k, cr3[pid], Pdi(va), Pti(va), true);
      vmm.pm.WriteWord(walk.frame, WordIndex(va), w);
      StoreShows(g, vmm.G(), vmm.kpd, vmm.k, cr3, s, pid, Pdi(va), Pti(va), WordIndex(va), w);
      return Running(Done);
    }

    /** One event: the new state refines what eager copying makes of the old one, with the same reply. */
    method Step(e: Event, ghost s: Spaces) returns (r: Outcome<Reply>)
      requires Inv() && Refines(s)
      modifies this, vmm, vmm.pm, vmm.pm.refs
      ensures r.Panicked? ==> vmm.pm.Stuck()
      ensures r.Running? ==> Inv() && Refines(Next(vmm.k, s, e).0) && r.value == Next(vmm.k, s, e).1
    {
      hide Valid, Good, SpaceIs, ProcsOk, Legal, Stored, WordOf, PageIn;
      assert cr3.Keys == s.Keys;
      match e
      case Create(pid) =>
        if pid in cr3 {
          return Running(Refused);
        }
        var _ :- Create(pid, s);
        return Running(Done);
      case Fork(parent, child) =>
        if parent !in cr3 || child in cr3 {
          return Running(Refused);
        }
        var _ :- Fork(parent, child, s);
        return Running(Done);
      case Load(pid, va) =>
        if pid !in cr3 {
          return Running(Refused);
        }
        r := Load(pid, va, s);
      case Store(pid, va, w) =>
        if pid !in cr3 {
          return Running(Refused);
        }
        r := Store(pid, va, w, s);
      case Exec(pid) =>
        if pid !in cr3 {
          return Running(Refused);
        }
        Exec(pid, s);
        return Running(Done);
      case Exit(pid) =>
        if pid !in cr3 {
          return Running(Refused);
        }
        Exit(pid, s);
        return Running(Done);
    }

    /** Any run from boot: the replies are those of eager copying, and the invariant holds throughout. */
    method Run(es: seq<Event>) returns (r: Outcome<seq<Reply>>)
      requires Inv() && Refines(map[])
      modifies this, vmm, vmm.pm, vmm.pm.refs
      ensures r.Panicked? ==> vmm.pm.Stuck()
      ensures r.Running? ==> Inv() && Refines(After(vmm.k, map[], es)) && r.value == Replies(vmm.k, map[], es)
    {
      hide Valid, Good, Shows, ProcsOk, Next;
      var replies: seq<Reply> := [];
      var i := 0;
      assert es[..0] == [];
      while i < |es|
        invariant i <= |es|
        invariant Inv() && Refines(After(vmm.k, map[], es[..i])) && replies == Replies(vmm.k, map[], es[..i])
      {
        var reply :- Step(es[i], After(vmm.k, map[], es[..i]));
        assert es[..i + 1][..i] == es[..i];
        replies := replies + [reply];
        i := i + 1;
      }
      assert es[..i] == es;
      return Running(replies);
    }
  }

  /** Under every process's directory the kernel reaches all memory but the null page, and the two APIC pages, at
      their physical addresses. */
  lemma KernelSeesMemory(g: Graph, kpd: nat, k: Kernel, l: Layout, d: nat, va: Address, write: bool)
    requires Good(g, kpd, k) && LiveDir(g, k, d) && Identity(k, 1, l.memPages, {l.localApic, l.ioApic})
    requires 1 <= va / 4096 < l.memPages || va / 4096 == l.localApic || va / 4096 == l.ioApic
    ensures Translate(g.mem, d, Pdi(va), Pti(va), Access(write, false)) == Allowed(va / 4096)
  {
    hide Good, LiveDir, Translate, Identity;
    Indices(va);
    assert IdentityAt(k, 1, l.memPages, {l.localApic, l.ioApic}, Pdi(va), Pti(va)) by {
      IdentityFor(k, l, Pdi(va), Pti(va));
    }
    KernelAccess(g, kpd, k, d, Pdi(va), Pti(va), write);
  }

  lemma IdentityFor(k: Kernel, l: Layout, i: nat, j: nat)
    requires Identity(k, 1, l.memPages, {l.localApic, l.ioApic}) && i < 1024 && j < 1024
    ensures IdentityAt(k, 1, l.memPages, {l.localApic, l.ioApic}, i, j)
  {
    hide IdentityAt;
  }

  /** After a boot with the local APIC at 0xFEE00000 every process that writes there leaves a page behind. */
  lemma ApicWrite(g: Graph, kpd: nat, k: Kernel, memPages: nat, ioApic: nat, d: nat)
    requires Good(g, kpd, k) && LiveDir(g, k, d) && Identity(k, 1, memPages, {0xFEE00, ioApic})
    ensures LeakyAccess(k, 0xFEE0_0000, Access(true, true))
    ensures Translate(g.mem, d, Pdi(0xFEE0_0000), Pti(0xFEE0_0000), Access(true, true))
      == Fault(ErrorCode(true, true, true))
  {
    hide Good, LiveDir, Translate;
    Indices(0xFEE0_0000);
    assert IdentityAt(k, 1, memPages, {0xFEE00, ioApic}, Pdi(0xFEE0_0000), Pti(0xFEE0_0000));
    KernelPageFaults(g, kpd, k, d, Pdi(0xFEE0_0000), Pti(0xFEE0_0000), true);
  }

  /** From power-on: the frames from start on are handed out, the kernel maps itself, and then any
      sequence of events is answered as eager copying would answer it, and as the events before demand, unless
      frames or counters run out. */
  method RunFromBoot(start: nat, memPages: nat, localApic: nat, ioApic: nat, es: seq<Event>)
      returns (r: Outcome<seq<Reply>>, ghost k: Kernel, ghost frames: Allocator)
    requires 0 < start < memPages && WORDS_PER_FRAME <= memPages < WORDS_PER_FRAME * WORDS_PER_FRAME
    requires localApic < WORDS_PER_FRAME * WORDS_PER_FRAME && ioApic < WORDS_PER_FRAME * WORDS_PER_FRAME
    ensures r.Panicked? ==> frames.Stuck()
    ensures r.Running? ==> Identity(k, 1, memPages, {localApic, ioApic}) && r.value == Replies(k, map[], es)
    ensures r.Running? ==> AllDue(Layout(memPages, localApic, ioApic), es, r.value)
  {
    hide Valid, Good, Shows, ProcsOk, Next, Booting, KernelOk, Identity, AllDue;
    k := EmptyKernel();
    var pm := new Allocator(start, memPages - start);
    frames := pm;
    TakenKeeps(pm.Snap());
    var kpd :- pm.UnsafeAllocFrame();
    var tables := new KernelTables(pm, kpd);
    var _ :- tables.GlobalInit(memPages, localApic, ioApic);
    k := tables.k;
    var vmm := tables.Start();
    var m := new Machine(vmm);
    var replies :- m.Run(es);
    RepliesDue(k, Layout(memPages, localApic, ioApic), es);
    return Running(replies), k, frames;
  }
}
