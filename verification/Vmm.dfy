/** Copy-on-write address spaces (kernel/vmm.cc) over the counted frames of PhysMem. */
module Vmm {
  import opened Frames
  import opened PhysMem
  import opened PageGraph
  import opened VmmSteps
  import opened DirSteps
  import opened ProtectSteps
  import opened DropSteps
  import opened ClearSteps
  import opened MapSteps
  import opened Mmu
  import opened FaultSteps
  import opened ProcSteps

  class Vmm {
    const pm: Allocator
    const kpd: nat
    ghost const k: Kernel
    ghost var own: map<Ref, nat>
    ghost var kind: map<nat, Kind>
    ghost var at: map<nat, nat>

    ghost function G(): Graph
      reads this, pm
    {
      Graph(pm.mem, pm.client, own, kind, at)
    }

    ghost predicate Inv()
      reads this, pm, pm.refs
    {
      Valid(pm.Snap()) && Good(G(), kpd, k)
    }

    constructor (pm: Allocator, kpd: nat, ghost k: Kernel)
      requires Valid(pm.Snap()) && KernelOk(k)
      requires KernelThere(Graph(pm.mem, pm.client, map[], map[], map[]), kpd, k)
      requires forall f :: f in pm.client ==> Fixed(pm.client[f])
      ensures Inv() && own == map[] && kind == map[] && this.pm == pm && this.k == k && this.kpd == kpd
    {
      this.pm := pm;
      this.kpd := kpd;
      this.k := k;
      own := map[];
      kind := map[];
      at := map[];
    }

    /** alloc_frame: a fresh zeroed frame with one reference, held in a local variable. */
    method Alloc(ghost kd: Kind, ghost a: nat) returns (r: Outcome<nat>)
      requires Inv() && (kd.Dir? || kd.Tab? || kd.Page?) && (kd.Page? ==> a >= USER_PAGES)
      modifies this, pm, pm.refs
      ensures r.Panicked? ==> pm.Stuck()
      ensures r.Running? ==> Inv() && Allocated(old(G()), G(), r.value, kd, a)
    {
      hide Wf, Valid, KernelThere, Good;
      ghost var g := G();
      var p :- pm.AllocFrame();
      own := own[Hand(p) := p];
      kind := kind[p := kd];
      at := at[p := a];
      AllocStep(g, G(), kpd, k, p, kd, a);
      return Running(p);
    }

    /** copy_pg */
    method CopyPg(pg: nat, ghost a: nat) returns (r: Outcome<nat>)
      requires Inv() && pg in pm.client && IsTable(pm.mem, pg) && a >= USER_PAGES
      modifies this, pm, pm.refs
      ensures r.Panicked? ==> pm.Stuck()
      ensures r.Running? ==> Inv() && PageCopied(old(G()), G(), r.value, pg, a)
    {
      hide Good, Valid, Wf;
      ghost var g := G();
      var p :- Alloc(Page, a);
      ghost var g1 := G();
      pm.WriteFrame(p, pm.mem[pg]);
      CopyPageStep(g, g1, G(), kpd, k, p, pg, a);
      return Running(p);
    }

    /** copy_pt, read-only entry: both tables refer to the page. */
    method ShareEntry(pt: nat, newPt: nat, i: nat, ghost a: nat) returns (r: Outcome<()>)
      requires Inv() && i < WORDS_PER_FRAME
      requires CopySource(G(), k, pt, newPt, a) && Building(G(), newPt, Tab, a)
      requires Ent(pm.mem, newPt, i) == ZERO_WORD
      requires Ent(pm.mem, pt, i).p && !Ent(pm.mem, pt, i).g && !Ent(pm.mem, pt, i).rw
      modifies this, pm, pm.refs
      ensures r.Panicked? ==> pm.Stuck()
      ensures r.Running? ==> Inv() && Building(G(), newPt, Tab, a)
      ensures r.Running? ==> Filled(old(G()), G(), newPt, i, Ent(old(pm.mem), pt, i))
    {
      hide Good, Valid, Wf, KDir, KMaps, Filled;
      ghost var g := G();
      SourceEntry(g, kpd, k, pt, newPt, a, i);
      Known(g, kpd, k);
      var pte := pm.mem[pt].ws[i];
      pm.WriteWord(newPt, i, pte);
      var _ :- pm.IncRef(pte.frame);
      own := own[Slot(newPt, i) := pte.frame];
      FillShared(g, G(), kpd, k, pt, newPt, a, i);
      return Running(());
    }

    /** copy_pt, writable entry: the new table gets a copy of the page. */
    method CopyEntry(pt: nat, newPt: nat, i: nat, ghost a: nat) returns (r: Outcome<()>)
      requires Inv() && i < WORDS_PER_FRAME
      requires CopySource(G(), k, pt, newPt, a) && Building(G(), newPt, Tab, a)
      requires Ent(pm.mem, newPt, i) == ZERO_WORD
      requires Ent(pm.mem, pt, i).p && !Ent(pm.mem, pt, i).g && Ent(pm.mem, pt, i).rw
      modifies this, pm, pm.refs
      ensures r.Panicked? ==> pm.Stuck()
      ensures r.Running? ==> Inv() && Building(G(), newPt, Tab, a)
      ensures r.Running? ==> Filled(old(G()), G(), newPt, i, Ent(old(pm.mem), pt, i))
    {
      hide Good, Valid, Wf, KDir, KMaps, Filled;
      ghost var g := G();
      SourceEntry(g, kpd, k, pt, newPt, a, i);
      Known(g, kpd, k);
      var pte := pm.mem[pt].ws[i];
      var p :- CopyPg(pte.frame, a * WORDS_PER_FRAME + i);
      ghost var g1 := G();
      FillCopied(g, g1, kpd, k, pt, newPt, a, i, p);
      pm.WriteWord(newPt, i, pte.(frame := p));
      own := (own - {Hand(p)})[Slot(newPt, i) := p];
      assert G() == Put(g1, newPt, i, pte.(frame := p));
      return Running(());
    }

    /** One round of the loop of copy_pt. */
    method CopyPtEntry(pt: nat, newPt: nat, i: nat, ghost a: nat) returns (r: Outcome<()>)
      requires Inv() && i < WORDS_PER_FRAME
      requires CopySource(G(), k, pt, newPt, a) && Building(G(), newPt, Tab, a)
      requires Ent(pm.mem, newPt, i) == ZERO_WORD
      modifies this, pm, pm.refs
      ensures r.Panicked? ==> pm.Stuck()
      ensures r.Running? ==> Inv() && Building(G(), newPt, Tab, a)
      ensures r.Running? ==> Filled(old(G()), G(), newPt, i, Ent(old(pm.mem), pt, i))
    {
      hide Good, Valid, Wf, KDir, KMaps;
      ghost var g := G();
      Known(g, kpd, k);
      var pte := pm.mem[pt].ws[i];
      if !pte.p {
        return Running(());
      }
      if pte.g {
        pm.WriteWord(newPt, i, pte);
        FillGlobal(g, kpd, k, pt, newPt, a, i);
        assert G() == Rewrite(g, newPt, i, pte);
        return Running(());
      }
      if !pte.rw {
        var _ :- ShareEntry(pt, newPt, i, a);
        return Running(());
      }
      var _ :- CopyEntry(pt, newPt, i, a);
      return Running(());
    }

    /** copy_pt */
    method CopyPt(pt: nat, ghost a: nat) returns (r: Outcome<nat>)
      requires Inv() && SourceTable(G(), k, pt, a)
      modifies this, pm, pm.refs
      ensures r.Panicked? ==> pm.Stuck()
      ensures r.Running? ==> Inv() && TableCopied(old(G()), G(), pt, r.value, a)
    {
      hide Good, Valid, Wf, KDir, KMaps, SourceTable, CopySource, Grows, Prefix, Filled;
      ghost var g := G();
      var newPt :- Alloc(Tab, a);
      ghost var g0 := G();
      CopyStart(g, g0, kpd, k, pt, newPt, a);
      var i := 0;
      while i < WORDS_PER_FRAME
        invariant i <= WORDS_PER_FRAME
        invariant Inv() && Grows(g0, G(), newPt) && Building(G(), newPt, Tab, a)
        invariant CopySource(G(), k, pt, newPt, a) && Prefix(g0, G(), pt, newPt, i)
      {
        ghost var g1 := G();
        PrefixEmpty(g0, g1, pt, newPt, i);
        var _ :- CopyPtEntry(pt, newPt, i, a);
        CopyRound(g0, g1, G(), kpd, k, pt, newPt, a, i);
        i := i + 1;
      }
      CopyEnd(g, g0, G(), kpd, k, pt, newPt, a);
      return Running(newPt);
    }

    /** copy_pd, read-only entry: both directories refer to the table. */
    method ShareDirEntry(pd: nat, newPd: nat, i: nat) returns (r: Outcome<()>)
      requires Inv() && i < WORDS_PER_FRAME && pd != newPd
      requires LiveDir(G(), k, pd) && Building(G(), newPd, Dir, 0) && Ent(pm.mem, newPd, i) == ZERO_WORD
      requires Names(Ent(pm.mem, pd, i)) && !Ent(pm.mem, pd, i).rw
      modifies this, pm, pm.refs
      ensures r.Panicked? ==> pm.Stuck()
      ensures r.Running? ==> Inv() && Building(G(), newPd, Dir, 0)
      ensures r.Running? ==> FilledDir(old(G()), G(), newPd, i, Ent(old(pm.mem), pd, i))
    {
      hide Good, Valid, Wf, KDir, KMaps, FilledDir, LiveDir;
      ghost var g := G();
      LiveDirKnown(g, k, pd);
      DirEntry(g, kpd, k, pd, i);
      Known(g, kpd, k);
      var pde := pm.mem[pd].ws[i];
      pm.WriteWord(newPd, i, pde);
      var _ :- pm.IncRef(pde.frame);
      own := own[Slot(newPd, i) := pde.frame];
      FillDirShared(g, G(), kpd, k, pd, newPd, i);
      return Running(());
    }

    /** copy_pd, writable private entry: the table is copied. */
    method CopyDirEntry(pd: nat, newPd: nat, i: nat) returns (r: Outcome<()>)
      requires Inv() && i < WORDS_PER_FRAME && pd != newPd
      requires LiveDir(G(), k, pd) && Building(G(), newPd, Dir, 0) && Ent(pm.mem, newPd, i) == ZERO_WORD
      requires Names(Ent(pm.mem, pd, i)) && Ent(pm.mem, pd, i).rw
      modifies this, pm, pm.refs
      ensures r.Panicked? ==> pm.Stuck()
      ensures r.Running? ==> Inv() && Building(G(), newPd, Dir, 0)
      ensures r.Running? ==> FilledDir(old(G()), G(), newPd, i, Ent(old(pm.mem), pd, i))
    {
      hide Good, Valid, Wf, KDir, KMaps, FilledDir, LiveDir, TableCopied;
      ghost var g := G();
      LiveDirKnown(g, k, pd);
      DirEntry(g, kpd, k, pd, i);
      Known(g, kpd, k);
      var pde := pm.mem[pd].ws[i];
      var p :- CopyPt(pde.frame, i);
      ghost var g1 := G();
      FillDirCopied(g, g1, kpd, k, pd, newPd, i, p);
      CopiedDirOwned(g, g1, kpd, k, pde.frame, newPd, p, i);
      pm.WriteWord(newPd, i, pde.(frame := p));
      own := (own - {Hand(p)})[Slot(newPd, i) := p];
      assert G() == Put(g1, newPd, i, pde.(frame := p));
      return Running(());
    }

    /** One round of the loop of copy_pd. */
    method CopyPdEntry(pd: nat, newPd: nat, i: nat) returns (r: Outcome<()>)
      requires Inv() && i < WORDS_PER_FRAME && pd != newPd
      requires LiveDir(G(), k, pd) && Building(G(), newPd, Dir, 0) && Ent(pm.mem, newPd, i) == ZERO_WORD
      modifies this, pm, pm.refs
      ensures r.Panicked? ==> pm.Stuck()
      ensures r.Running? ==> Inv() && Building(G(), newPd, Dir, 0)
      ensures r.Running? ==> FilledDir(old(G()), G(), newPd, i, Ent(old(pm.mem), pd, i))
    {
      hide Good, Valid, Wf, KDir, KMaps, LiveDir;
      ghost var g := G();
      LiveDirKnown(g, k, pd);
      Known(g, kpd, k);
      var pde := pm.mem[pd].ws[i];
      if !pde.p {
        return Running(());
      }
      if !pde.ng {
        pm.WriteWord(newPd, i, pde);
        FillDirGlobal(g, kpd, k, pd, newPd, i);
        assert G() == Rewrite(g, newPd, i, pde);
        return Running(());
      }
      if !pde.rw {
        var _ :- ShareDirEntry(pd, newPd, i);
        return Running(());
      }
      var _ :- CopyDirEntry(pd, newPd, i);
      return Running(());
    }

    /** copy_pd */
    method CopyPd(pd: nat) returns (r: Outcome<nat>)
      requires Inv() && LiveDir(G(), k, pd)
      modifies this, pm, pm.refs
      ensures r.Panicked? ==> pm.Stuck()
      ensures r.Running? ==> Inv() && DirCopied(old(G()), G(), pd, r.value)
      ensures r.Running? ==> LiveDir(G(), k, r.value) && SameView(old(G()), G(), pd, r.value)
    {
      hide Good, Valid, Wf, KDir, KMaps, LiveDir, Grows, PrefixDir, FilledDir, DirCopied, SameView;
      ghost var g := G();
      var newPd :- Alloc(Dir, 0);
      ghost var g0 := G();
      CopyPdStart(g, g0, kpd, k, pd, newPd);
      var i := 0;
      while i < WORDS_PER_FRAME
        invariant i <= WORDS_PER_FRAME
        invariant Inv() && Grows(g0, G(), newPd) && Building(G(), newPd, Dir, 0)
        invariant LiveDir(G(), k, pd) && PrefixDir(g0, G(), pd, newPd, i)
      {
        ghost var g1 := G();
        PrefixDirEmpty(g0, g1, pd, newPd, i);
        var _ :- CopyPdEntry(pd, newPd, i);
        CopyPdRound(g0, g1, G(), kpd, k, pd, newPd, i);
        i := i + 1;
      }
      CopyPdEnd(g, g0, G(), kpd, k, pd, newPd);
      DirCopiedView(g, G(), kpd, k, pd, newPd);
      return Running(newPd);
    }

    /** write_protect, one round of the inner loop. The graph g is the state with the directory entry
        still writable; the real entry is writable iff a kernel entry was met (b). */
    method ProtectPte(pd: nat, pdi: nat, pt: nat, pti: nat, ghost pde: Word, ghost b: bool) returns (ghost b': bool)
      requires ProtectingTable(pd, pdi, pt, pti, pde, b) && pti < WORDS_PER_FRAME
      modifies this, pm
      ensures ProtectingTable(pd, pdi, pt, pti + 1, pde, b')
      ensures RwOnly(old(ShadowG(pd, pdi, pde)), ShadowG(pd, pdi, pde))
      ensures forall t, i :: t != pt && (t != pd || i != pdi) ==> Ent(pm.mem, t, i) == old(Ent(pm.mem, t, i))
    {
      hide Wf, Good, Valid, Protecting, RwOnly;
      ghost var g := ShadowG(pd, pdi, pde);
      Known(g, kpd, k);
      SetEntOne(pm.mem, pd, pdi, pde);
      b' := b;
      var pte := pm.mem[pt].ws[pti];
      if Names(pte) && pte.rw {
        ProtectRound(g, kpd, k, pt, pti, b);
        SetCommute(pm.mem, pd, pdi, pde, pt, pti, pte.(rw := false));
        SetEntOne(pm.mem, pt, pti, pte.(rw := false));
        pm.WriteWord(pt, pti, pte.(rw := false));
      } else {
        ProtectSkip(g, pt, pti, b);
        RwOnlyRefl(g);
        if pte.p && pte.rw {
          var e := pm.mem[pd].ws[pdi];
          SetTwice(pm.mem, pd, pdi, e.(rw := true), pde);
          SetEntOne(pm.mem, pd, pdi, e.(rw := true));
          pm.WriteWord(pd, pdi, e.(rw := true));
          b' := true;
        }
      }
    }

    ghost function ShadowG(pd: nat, pdi: nat, pde: Word): Graph
      reads this, pm
      requires IsTable(pm.mem, pd) && pdi < WORDS_PER_FRAME
    {
      Shadow(G(), pd, pdi, pde)
    }

    ghost predicate ProtectingTable(pd: nat, pdi: nat, pt: nat, pti: nat, pde: Word, b: bool)
      reads this, pm, pm.refs
    {
      && Valid(pm.Snap()) && pd != pt && pdi < WORDS_PER_FRAME
      && IsTable(pm.mem, pd) && IsTable(pm.mem, pt) && pd in pm.client && pt in pm.client
      && LiveTable(G(), pt) && kind[pt].Tab? && Ent(pm.mem, pd, pdi) == pde.(rw := b)
      && Good(ShadowG(pd, pdi, pde), kpd, k) && Protecting(ShadowG(pd, pdi, pde), pt, pti, b)
    }

    /** write_protect, the rounds for one table. */
    method ProtectTable(pd: nat, pdi: nat)
      requires Inv() && LiveDir(G(), k, pd) && pdi < WORDS_PER_FRAME
      requires Names(Ent(pm.mem, pd, pdi)) && Ent(pm.mem, pd, pdi).rw
      modifies this, pm
      ensures Inv() && RwOnly(old(G()), G()) && ProtectedAt(pm.mem, pd, pdi)
      ensures forall t, i :: t != old(Ent(pm.mem, pd, pdi)).frame && (t != pd || i != pdi) ==>
        Ent(pm.mem, t, i) == old(Ent(pm.mem, t, i))
    {
      hide Wf, Good, Valid, LiveDir, KDir, RwOnly, Protecting, NothingWritable;
      ghost var g := G();
      Known(g, kpd, k);
      LiveDirKnown(g, k, pd);
      TabsKnown(g, kpd, k, pd, pdi);
      var pde := pm.mem[pd].ws[pdi];
      var pt := pde.frame;
      ghost var b := false;
      SetTwice(pm.mem, pd, pdi, pde.(rw := false), pde);
      SetSame(pm.mem, pd, pdi);
      SetEntOne(pm.mem, pd, pdi, pde.(rw := false));
      pm.WriteWord(pd, pdi, pde.(rw := false));
      assert ShadowG(pd, pdi, pde) == g;
      ProtectBegin(g, pt);
      RwOnlyRefl(g);
      var pti := 0;
      while pti < WORDS_PER_FRAME
        invariant pti <= WORDS_PER_FRAME
        invariant ProtectingTable(pd, pdi, pt, pti, pde, b) && RwOnly(g, ShadowG(pd, pdi, pde))
        invariant forall t, i :: t != pt && (t != pd || i != pdi) ==> Ent(pm.mem, t, i) == Ent(g.mem, t, i)
      {
        ghost var s := ShadowG(pd, pdi, pde);
        b := ProtectPte(pd, pdi, pt, pti, pde, b);
        RwOnlyTrans(g, s, ShadowG(pd, pdi, pde));
        pti := pti + 1;
      }
      ghost var s := ShadowG(pd, pdi, pde);
      ProtectEnd(g, s, G(), kpd, k, pd, pdi, pde, b);
    }

    /** write_protect: afterwards no private page below pd is writable. */
    method WriteProtect(pd: nat)
      requires Inv() && LiveDir(G(), k, pd)
      modifies this, pm
      ensures Inv() && LiveDir(G(), k, pd) && RwOnly(old(G()), G())
      ensures forall i :: 0 <= i < WORDS_PER_FRAME ==> ProtectedAt(pm.mem, pd, i)
    {
      hide Wf, Good, Valid, LiveDir, RwOnly, NothingWritable;
      ghost var g := G();
      RwOnlyRefl(g);
      var pdi := 0;
      while pdi < WORDS_PER_FRAME
        invariant pdi <= WORDS_PER_FRAME
        invariant Inv() && LiveDir(G(), k, pd) && RwOnly(g, G())
        invariant forall i :: 0 <= i < pdi ==> ProtectedAt(pm.mem, pd, i)
      {
        ghost var g1 := G();
        LiveDirKnown(g1, k, pd);
        var pde := pm.mem[pd].ws[pdi];
        if Names(pde) && pde.rw {
          ProtectTable(pd, pdi);
          ProtectOthers(g1, G(), kpd, k, pd, pdi);
          RwOnlyTrans(g, g1, G());
        } else {
          ProtectedAlready(g1, kpd, k, pd, pdi);
        }
        pdi := pdi + 1;
      }
    }

    /** The state with entry z, if it is one, taken as already cleared. */
    ghost function M(z: Ref): Graph
      reads this, pm
    {
      Masked(G(), z)
    }

    ghost predicate InvM(z: Ref)
      reads this, pm, pm.refs
    {
      Valid(pm.Snap()) && Good(M(z), kpd, k) && (z.Slot? ==> z.table in pm.client && z.table in pm.mem)
    }

    /** decref(f, destroy_pg): gives up the reference r to page f. */
    method DropPage(f: nat, ghost r: Ref, ghost z: Ref)
      requires InvM(z) && Droppable(M(z), r) && own[r] == f && f in kind && kind[f].Page?
      requires z.Slot? ==> z.table != f
      modifies this, pm, pm.refs
      ensures InvM(z) && own == old(own) - {r} && at == old(at)
      ensures kind == if CountOf(old(pm.client), f) == 1 then old(kind) - {f} else old(kind)
      ensures MemKept(old(G()), G())
      ensures forall x :: Shrinks(old(M(z)), M(z), x, r)
    {
      hide Wf, Good, Valid, Masked, Shrinks, IsTable, MemKept;
      ghost var g := G();
      MaskedSame(g, z);
      CountedRef(M(z), kpd, k, r);
      pm.DecRef(f);
      if CountOf(old(pm.client), f) == 1 {
        kind := kind - {f};
      }
      own := own - {r};
      FramesKept(g, G(), f);
      DropMasked(g, G(), kpd, k, r, z);
    }

    /** destroy_pt: gives up every page of a table that has no references left. */
    method DestroyPt(pt: nat, ghost z: Ref)
      requires InvM(z) && Dying(M(z), pt, 0) && pt in kind && kind[pt].OldTab? && pt in pm.client
      requires z.Slot? ==> z.table in kind && kind[z.table].Dir?
      modifies this, pm, pm.refs
      ensures InvM(z) && Dying(M(z), pt, WORDS_PER_FRAME) && pt in kind && kind[pt].OldTab? && pt in pm.client
      ensures z.Slot? ==> z.table in kind && kind[z.table].Dir?
      ensures Shrinks(old(M(z)), M(z), pt, Slot(pt, 0)) && at == old(at)
    {
      hide Wf, Good, Valid, Masked, Shrinks, Dying;
      ghost var g := M(z);
      ShrinksRefl(g, kpd, k, pt, Slot(pt, 0));
      var i := 0;
      while i < WORDS_PER_FRAME
        invariant i <= WORDS_PER_FRAME
        invariant InvM(z) && Dying(M(z), pt, i) && pt in kind && kind[pt].OldTab? && pt in pm.client
        invariant z.Slot? ==> z.table in kind && kind[z.table].Dir?
        invariant Shrinks(g, M(z), pt, Slot(pt, 0)) && at == old(at)
      {
        DyingTable(M(z), pt, i);
        MaskedSame(G(), z);
        var pte := pm.mem[pt].ws[i];
        if Names(pte) {
          ghost var g1 := M(z);
          DyingEntry(g1, kpd, k, pt, i);
          DropPage(pte.frame, Slot(pt, i), z);
          MaskedSame(G(), z);
          DyingNext(g1, M(z), pt, i);
          ShrinksTrans(g, g1, M(z), pt, Slot(pt, 0), Slot(pt, i));
          Known(M(z), kpd, k);
        } else {
          DyingSkip(M(z), kpd, k, pt, i);
        }
        i := i + 1;
      }
    }

    /** The rest of decref(pt, destroy_pt) once the count is zero: the callback, then the frame goes. */
    method ReleaseTab(pt: nat, ghost z: Ref)
      requires InvM(z) && Dying(M(z), pt, 0) && pt in kind && kind[pt].OldTab?
      requires z.Slot? ==> z.table in kind && kind[z.table].Dir?
      modifies this, pm, pm.refs
      ensures InvM(z) && Shrinks(old(M(z)), M(z), pt, Slot(pt, 0)) && pt !in kind && at == old(at)
      ensures z.Slot? ==> z.table in kind && kind[z.table].Dir?
    {
      hide Wf, Good, Valid, Masked, Shrinks, Dying;
      ghost var g := M(z);
      MaskedSame(G(), z);
      PendingTab(g, kpd, k, pt);
      DestroyPt(pt, z);
      ghost var g1, h := M(z), G();
      MaskedSame(h, z);
      PendingTab(g1, kpd, k, pt);
      pm.Release(pt);
      kind := kind - {pt};
      MaskedSame(G(), z);
      MaskKept(h, G(), z);
      BuryStep(g1, M(z), kpd, k, pt);
      ShrinksTrans(g, g1, M(z), pt, Slot(pt, 0), Slot(pt, 0));
    }

    /** The first half of decref(pt, destroy_pt). */
    method DecrementTab(pt: nat, ghost r: Ref, ghost z: Ref) returns (zero: bool)
      requires InvM(z) && Droppable(M(z), r) && own[r] == pt && pt in kind && kind[pt].Tab?
      requires z.Slot? ==> z.table in kind && kind[z.table].Dir?
      modifies this, pm
      ensures InvM(z) && Shrinks(old(M(z)), M(z), pt, r) && at == old(at) && r !in own
      ensures if zero then kind == old(kind)[pt := OldTab] && Dying(M(z), pt, 0) else kind == old(kind)
    {
      hide Wf, Good, Valid, Masked, Shrinks, Dying;
      ghost var g, h := M(z), G();
      MaskedSame(h, z);
      Known(g, kpd, k);
      CountedRef(g, kpd, k, r);
      zero := pm.Decrement(pt);
      own := own - {r};
      if zero {
        kind := kind[pt := OldTab];
      }
      MaskedSame(G(), z);
      MaskKept(h, G(), z);
      if zero {
        AgeStep(g, M(z), kpd, k, r);
      } else {
        DropStep(g, M(z), kpd, k, r);
      }
    }

    /** decref(pt, destroy_pt): gives up the reference r to table pt. */
    method DecRefTab(pt: nat, ghost r: Ref, ghost z: Ref)
      requires InvM(z) && Droppable(M(z), r) && own[r] == pt && pt in kind && kind[pt].Tab?
      requires z.Slot? ==> z.table in kind && kind[z.table].Dir?
      modifies this, pm, pm.refs
      ensures InvM(z) && Loses(old(M(z)), M(z), r) && KeepsSlots(old(M(z)), M(z), pt, r)
      ensures z.Slot? ==> z.table in kind && kind[z.table].Dir?
    {
      hide Wf, Good, Valid, Masked, Shrinks, Dying, Droppable;
      ghost var g := M(z);
      MaskedSame(G(), z);
      var zero := DecrementTab(pt, r, z);
      MaskedSame(G(), z);
      if zero {
        ghost var g1 := M(z);
        ReleaseTab(pt, z);
        MaskedSame(G(), z);
        ShrinksGone(g1, M(z), pt, Slot(pt, 0), r);
        ShrinksTrans(g, g1, M(z), pt, r, Slot(pt, 0));
      }
      ShrinksLoses(g, M(z), kpd, k, pt, r);
    }

    /** One round of the loop of destroy_pd. */
    method DestroyPdEntry(pd: nat, i: nat)
      requires Inv() && Dying(G(), pd, i) && pd in kind && kind[pd].OldDir? && i < WORDS_PER_FRAME
      modifies this, pm, pm.refs
      ensures Inv() && Dying(G(), pd, i + 1) && pd in kind && kind[pd].OldDir?
      ensures Loses(old(G()), G(), Slot(pd, i))
    {
      hide Wf, Good, Valid, Dying, Loses;
      ghost var g := G();
      DyingTable(g, pd, i);
      LosesRefl(g, kpd, k, Slot(pd, i));
      var pde := pm.mem[pd].ws[i];
      if Names(pde) {
        DyingEntry(g, kpd, k, pd, i);
        assert M(NoMask()) == g;
        DecRefTab(pde.frame, Slot(pd, i), NoMask());
        assert M(NoMask()) == G();
        DyingSurvives(g, G(), kpd, k, pd, i);
        DyingDirNext(g, G(), kpd, k, pd, i);
      } else {
        DyingSkip(g, kpd, k, pd, i);
      }
    }

    /** destroy_pd: gives up every table of process pid and then its directory. */
    method DestroyPd(pd: nat, ghost pid: nat)
      requires Inv() && Root(pid) in own && own[Root(pid)] == pd && pd in kind && kind[pd].Dir?
      requires Hand(pd) !in own
      modifies this, pm, pm.refs
      ensures Inv() && pd !in kind && Root(pid) !in own
      ensures Loses(old(G()), G(), Root(pid))
    {
      hide Wf, Good, Valid, Dying, Loses;
      ghost var g := G();
      AgeDirBegin(g, kpd, k, pd);
      kind := kind[pd := OldDir];
      assert G() == AgeDir(g, pd);
      LosesRefl(G(), kpd, k, Root(pid));
      var i := 0;
      while i < WORDS_PER_FRAME
        invariant i <= WORDS_PER_FRAME
        invariant Inv() && Dying(G(), pd, i) && pd in kind && kind[pd].OldDir?
        invariant Root(pid) in own && own[Root(pid)] == pd && Loses(AgeDir(g, pd), G(), Root(pid))
      {
        ghost var g1 := G();
        DestroyPdEntry(pd, i);
        LosesTrans(AgeDir(g, pd), g1, G(), Root(pid), Slot(pd, i));
        LosesRoot(g1, G(), Slot(pd, i), pid);
        i := i + 1;
      }
      ghost var g2 := G();
      CountedRef(g2, kpd, k, Root(pid));
      pm.DecRef(pd);
      own := own - {Root(pid)};
      kind := kind - {pd};
      DropDirStep(g2, G(), kpd, k, pd, pid);
      LosesTrans(AgeDir(g, pd), g2, G(), Root(pid), Root(pid));
      AgedLoses(g, G(), kpd, k, pd, pid);
    }

    /** decref(pte, destroy_pg) followed by pt[i] = 0. */
    method DropEntry(pt: nat, i: nat)
      requires Inv() && pt in kind && kind[pt].Tab? && IsTable(pm.mem, pt) && i < WORDS_PER_FRAME
      requires Names(Ent(pm.mem, pt, i)) && Hand(Ent(pm.mem, pt, i).frame) !in own
      modifies this, pm, pm.refs
      ensures Inv() && Edits(old(G()), G(), pt) && NonSlotsKept(old(G()), G()) && DirsStay(old(G()), G())
      ensures pt in kind && kind[pt].Tab? && IsTable(pm.mem, pt)
      ensures pm.mem[pt] == SetEnt(old(pm.mem), pt, i, ZERO_WORD)[pt]
    {
      hide Wf, Good, Valid, Edits, NonSlotsKept, DirsStay;
      ghost var g := G();
      PageBelow(g, kpd, k, pt, i);
      var pte := pm.mem[pt].ws[i];
      pm.DecRef(pte.frame);
      pm.WriteWord(pt, i, ZERO_WORD);
      if CountOf(g.client, pte.frame) == 1 {
        kind := kind - {pte.frame};
      }
      own := own - {Slot(pt, i)};
      ClearEntryStep(g, G(), kpd, k, pt, i);
    }

    /** clear_pt, private entry: the page's reference goes and the entry is cleared. */
    method ClearPtEntry(pd: nat, pdi: nat, pt: nat, i: nat)
      requires Inv() && NoHands(own) && LiveDir(G(), k, pd) && Private(G(), pd, pdi)
      requires pt == Ent(pm.mem, pd, pdi).frame && i < WORDS_PER_FRAME && Names(Ent(pm.mem, pt, i))
      modifies this, pm, pm.refs
      ensures Inv() && NoHands(own) && LiveDir(G(), k, pd) && Private(G(), pd, pdi)
      ensures Local(old(G()), G(), pd) && old(IsTable(pm.mem, pd) && IsTable(pm.mem, pt))
      ensures pd in pm.mem && pm.mem[pd] == old(pm.mem)[pd]
      ensures pt in pm.mem && pm.mem[pt] == SetEnt(old(pm.mem), pt, i, ZERO_WORD)[pt]
      ensures Edits(old(G()), G(), pt)
    {
      hide Wf, Good, Valid, LiveDir, KDir, Local, Edits, DirsStay;
      ghost var g := G();
      LiveDirKnown(g, k, pd);
      TabsKnown(g, kpd, k, pd, pdi);
      PrivateTable(g, kpd, k, pd, pdi);
      DropEntry(pt, i);
      LocalDir(g, G(), kpd, k, pd, pdi, pt);
      LiveDirKnown(G(), k, pd);
    }

    /** clear_pt, for the private table of directory pd that holds kernel entries. */
    method ClearPt(pd: nat, pdi: nat, pt: nat)
      requires Inv() && NoHands(own) && LiveDir(G(), k, pd) && Private(G(), pd, pdi)
      requires pt == Ent(pm.mem, pd, pdi).frame && Ent(pm.mem, pd, pdi).g
      modifies this, pm, pm.refs
      ensures Inv() && NoHands(own) && LiveDir(G(), k, pd) && Private(G(), pd, pdi)
      ensures Local(old(G()), G(), pd)
      ensures pd in pm.mem && pd in old(pm.mem) && pm.mem[pd] == old(pm.mem)[pd]
      ensures ClearedTo(pm.mem, pt, WORDS_PER_FRAME, false) && Edits(old(G()), G(), pt)
    {
      hide Wf, Good, Valid, LiveDir, KDir, Local, Private, ClearedTo, SetEnt, Edits;
      ghost var g := G();
      LiveDirKnown(g, k, pd);
      EditsRefl(g, kpd, k, pt);
      LocalRefl(g, pd);
      var discard: bool := *;
      assert ClearedTo(pm.mem, pt, 0, discard) by { ClearedStart(pm.mem, pt, discard); }
      var i := 0;
      while i < WORDS_PER_FRAME
        invariant i <= WORDS_PER_FRAME
        invariant Inv() && NoHands(own) && LiveDir(G(), k, pd) && Private(G(), pd, pdi)
        invariant Local(g, G(), pd) && pd in pm.mem && pm.mem[pd] == g.mem[pd]
        invariant ClearedTo(pm.mem, pt, i, discard) && Edits(g, G(), pt)
      {
        ghost var g1 := G();
        PrivateTable(g1, kpd, k, pd, pdi);
        ContentKept(g.mem, g1.mem, pd);
        var pte := pm.mem[pt].ws[i];
        if !pte.p {
          ClearedSkip(pm.mem, pt, i, discard, discard);
        } else if !pte.ng {
          ClearedSkip(pm.mem, pt, i, discard, false);
          discard := false;
        } else {
          ClearPtEntry(pd, pdi, pt, i);
          ClearedNext(g1.mem, pm.mem, pt, i, discard);
          LocalTrans(g, g1, G(), pd);
          EditsTrans(g, g1, G(), pt);
        }
        i := i + 1;
      }
      ContentKept(g.mem, pm.mem, pd);
      PrivateTable(G(), kpd, k, pd, pdi);
      GlobalNotEmpty(G(), kpd, k, pd, pdi);
      ClearedFound(pm.mem, pt, discard);
      assert !discard;
    }

    /** clear_pd, private entry without kernel entries below: the table's reference goes. */
    method ClearTab(pd: nat, i: nat)
      requires Inv() && NoHands(own) && LiveDir(G(), k, pd) && i < WORDS_PER_FRAME
      requires Names(Ent(pm.mem, pd, i)) && !Ent(pm.mem, pd, i).g
      modifies this, pm, pm.refs
      ensures Inv() && NoHands(own) && LiveDir(G(), k, pd) && Local(old(G()), G(), pd)
      ensures Edits(old(G()), G(), pd) && DirEntryCleared(old(pm.mem), pm.mem, pd, i)
    {
      hide Wf, Good, Valid, LiveDir, KDir, Local, Edits, Loses, DirEntryCleared;
      ghost var g := G();
      LiveDirKnown(g, k, pd);
      Known(g, kpd, k);
      var pde := pm.mem[pd].ws[i];
      TakeDirEntry(g, kpd, k, pd, i);
      own := (own - {Slot(pd, i)})[Hand(pde.frame) := pde.frame];
      ghost var z := Slot(pd, i);
      assert M(z) == Take(g, pd, i);
      DecRefTab(pde.frame, Hand(pde.frame), z);
      ghost var g1 := M(z);
      DirTable(g, Take(g, pd, i), g1, pd, Hand(pde.frame));
      pm.WriteWord(pd, i, ZERO_WORD);
      assert g1 == G();
      ClearTabEnd(g, G(), kpd, k, pd, i);
    }

    /** clear_pd, one round. */
    method ClearPdEntry(pd: nat, i: nat)
      requires Inv() && NoHands(own) && LiveDir(G(), k, pd) && i < WORDS_PER_FRAME && DirClearedTo(pm.mem, pd, i)
      modifies this, pm, pm.refs
      ensures Inv() && NoHands(own) && LiveDir(G(), k, pd) && Local(old(G()), G(), pd)
      ensures DirClearedTo(pm.mem, pd, i + 1)
    {
      hide Wf, Good, Valid, LiveDir, KDir, Local, Edits, DirEntryCleared, DirClearedTo, ClearedTo;
      ghost var g := G();
      LiveDirKnown(g, k, pd);
      LocalRefl(g, pd);
      var pde := pm.mem[pd].ws[i];
      if !Names(pde) {
        DirClearedSkip(pm.mem, pd, i);
        return;
      }
      if !pde.g {
        ClearTab(pd, i);
        DirClearedTab(g, G(), kpd, k, pd, i);
        return;
      }
      GlobalPrivate(g, kpd, k, pd, i);
      ClearPt(pd, i, pde.frame);
      DirClearedPt(g, G(), kpd, k, pd, i);
    }

    /** clear_pd: afterwards the process sees zeros everywhere and the kernel's mappings. */
    method ClearPd(pd: nat)
      requires Inv() && NoHands(own) && LiveDir(G(), k, pd)
      modifies this, pm, pm.refs
      ensures Inv() && NoHands(own) && LiveDir(G(), k, pd) && Local(old(G()), G(), pd)
      ensures DirClearedTo(pm.mem, pd, WORDS_PER_FRAME)
    {
      hide Wf, Good, Valid, LiveDir, KDir, Local, DirClearedTo;
      ghost var g := G();
      LocalRefl(g, pd);
      var i := 0;
      assert DirClearedTo(pm.mem, pd, 0) by { DirClearedStart(pm.mem, pd); }
      while i < WORDS_PER_FRAME
        invariant i <= WORDS_PER_FRAME
        invariant Inv() && NoHands(own) && LiveDir(G(), k, pd) && Local(g, G(), pd)
        invariant DirClearedTo(pm.mem, pd, i)
      {
        ghost var g1 := G();
        ClearPdEntry(pd, i);
        LocalTrans(g, g1, G(), pd);
        i := i + 1;
      }
    }

    // ---------- map and map_copy ----------

    /** map and map_copy: the directory entry was empty. */
    method NewTable(pd: nat, pdi: nat, ghost pa: nat, ghost a: nat) returns (r: Outcome<()>)
      requires Inv() && LiveDir(G(), k, pd) && pdi < WORDS_PER_FRAME && !Ent(pm.mem, pd, pdi).p && InFlight(G(), pa, a)
      modifies this, pm, pm.refs
      ensures r.Panicked? ==> pm.Stuck()
      ensures r.Running? ==> Inv() && Owns(old(G()), G(), k, pd, pdi, pa)
    {
      hide Good, Valid, Wf, KDir, LiveDir, Putable, Fresh, Owns, InFlight, Grown, Building;
      ghost var g := G();
      DirEntry(g, kpd, k, pd, pdi);
      var p :- Alloc(Tab, pdi);
      ghost var g1 := G();
      FreshEmpty(g, g1, kpd, k, pd, pdi, p);
      EmptyNotKernel(g, k, pd, pdi);
      FreshPutable(g, g1, kpd, k, pd, pdi, p, UserWord(p));
      GoodPut(g1, kpd, k, pd, pdi, UserWord(p));
      DirKnown(g, g1, kpd, k, pd, pdi, p);
      pm.WriteWord(pd, pdi, UserWord(p));
      own := (own - {Hand(p)})[Slot(pd, pdi) := p];
      assert G() == Put(g1, pd, pdi, UserWord(p));
      OwnsNew(g, g1, G(), kpd, k, pd, pdi, p, UserWord(p), pa, a);
      return Running(());
    }

    /** map and map_copy: the directory entry names a kernel table. */
    method CopyKernelTable(pd: nat, pdi: nat, ghost pa: nat, ghost a: nat) returns (r: Outcome<()>)
      requires Inv() && LiveDir(G(), k, pd) && pdi < WORDS_PER_FRAME && InFlight(G(), pa, a)
      requires Ent(pm.mem, pd, pdi).p && !Ent(pm.mem, pd, pdi).ng
      modifies this, pm, pm.refs
      ensures r.Panicked? ==> pm.Stuck()
      ensures r.Running? ==> Inv() && Owns(old(G()), G(), k, pd, pdi, pa)
    {
      hide Good, Valid, Wf, KDir, LiveDir, Putable, Fresh, Owns, InFlight, Grown, Building, TableCopied;
      ghost var g := G();
      LiveDirKnown(g, k, pd);
      KernelSource(g, kpd, k, pd, pdi);
      var pde := pm.mem[pd].ws[pdi];
      var p :- CopyPt(pde.frame, pdi);
      ghost var g1 := G();
      var w := WithFlags(pde.(frame := p));
      FreshCopy(g, g1, kpd, k, pd, pdi, p);
      FreshPutable(g, g1, kpd, k, pd, pdi, p, w);
      GoodPut(g1, kpd, k, pd, pdi, w);
      DirKnown(g, g1, kpd, k, pd, pdi, p);
      pm.WriteWord(pd, pdi, w);
      own := (own - {Hand(p)})[Slot(pd, pdi) := p];
      assert G() == Put(g1, pd, pdi, w);
      OwnsNew(g, g1, G(), kpd, k, pd, pdi, p, w, pa, a);
      return Running(());
    }

    /** map and map_copy: the directory entry names a table that may be shared. */
    method UnshareTable(pd: nat, pdi: nat, ghost pa: nat, ghost a: nat) returns (r: Outcome<()>)
      requires Inv() && LiveDir(G(), k, pd) && pdi < WORDS_PER_FRAME && InFlight(G(), pa, a)
      requires Names(Ent(pm.mem, pd, pdi)) && !HasFlags(Ent(pm.mem, pd, pdi))
      modifies this, pm, pm.refs
      ensures r.Panicked? ==> pm.Stuck()
      ensures r.Running? ==> Inv() && Owns(old(G()), G(), k, pd, pdi, pa)
    {
      hide Good, Valid, Wf, KDir, LiveDir, Putable, Fresh, Owns, InFlight, Grown, Building, TableCopied, Installed,
          Loses;
      ghost var g := G();
      LiveDirKnown(g, k, pd);
      SharedSource(g, kpd, k, pd, pdi, pa, a);
      var pde := pm.mem[pd].ws[pdi];
      var p :- CopyPt(pde.frame, pdi);
      ghost var g1 := G();
      var w := WithFlags(pde.(frame := p));
      FreshCopy(g, g1, kpd, k, pd, pdi, p);
      SwapGood(g, g1, kpd, k, pd, pdi, p, w);
      DirKnown(g, g1, kpd, k, pd, pdi, p);
      FreshTakeable(g, g1, kpd, k, pd, pdi, p);
      pm.WriteWord(pd, pdi, w);
      own := (((own - {Slot(pd, pdi)})[Hand(pde.frame) := pde.frame]) - {Hand(p)})[Slot(pd, pdi) := p];
      assert G() == Swap(g1, pd, pdi, w);
      ghost var g2 := G();
      SwapHand(g, g1, g2, kpd, k, pd, pdi, p, w, pde.frame, pa, a);
      assert M(NoMask()) == g2;
      DecRefTab(pde.frame, Hand(pde.frame), NoMask());
      assert M(NoMask()) == G();
      SwapOwns(g, g1, g2, G(), kpd, k, pd, pdi, p, w, pa, a, pde.frame);
      return Running(());
    }

    /** The first half of map and map_copy: afterwards pd has its own writable table at index pdi. */
    method OwnTable(pd: nat, pdi: nat, ghost pa: nat, ghost a: nat) returns (r: Outcome<()>)
      requires Inv() && LiveDir(G(), k, pd) && pdi < WORDS_PER_FRAME && InFlight(G(), pa, a)
      modifies this, pm, pm.refs
      ensures r.Panicked? ==> pm.Stuck()
      ensures r.Running? ==> Inv() && Owns(old(G()), G(), k, pd, pdi, pa)
    {
      hide Good, Valid, Wf, LiveDir, Owns, InFlight;
      ghost var g := G();
      LiveDirKnown(g, k, pd);
      var pde := pm.mem[pd].ws[pdi];
      if !pde.p {
        var _ :- NewTable(pd, pdi, pa, a);
      } else if !HasFlags(pde) {
        if pde.ng {
          var _ :- UnshareTable(pd, pdi, pa, a);
        } else {
          var _ :- CopyKernelTable(pd, pdi, pa, a);
        }
      } else {
        OwnsAlready(g, kpd, k, pd, pdi, pa, a);
      }
      return Running(());
    }

    /** The page table of a private directory entry. */
    ghost predicate TableOf(pd: nat, pdi: nat, pt: nat)
      reads this, pm, pm.refs
    {
      LiveDir(G(), k, pd) && Private(G(), pd, pdi) && pt == Ent(pm.mem, pd, pdi).frame
    }

    /** pt[pti] = pa | flags, where nothing was mapped. */
    method EnterPage(pd: nat, pdi: nat, pt: nat, pti: nat, pa: nat)
      requires Inv() && TableOf(pd, pdi, pt) && pti < WORDS_PER_FRAME && !Ent(pm.mem, pt, pti).p
      requires InFlight(G(), pa, pdi * WORDS_PER_FRAME + pti) && pm.mem[pa] == ZeroFrame()
      modifies this, pm
      ensures Inv() && Mapped(old(G()), G(), k, pd, pdi, pti, pa)
    {
      hide Good, Valid, Wf, LiveDir, InFlight, Mapped;
      ghost var g := G();
      MapPage(g, kpd, k, pd, pdi, pti, pt, pa);
      LiveDirKnown(g, k, pd);
      TabsKnown(g, kpd, k, pd, pdi);
      Known(g, kpd, k);
      pm.WriteWord(pt, pti, UserWord(pa));
      own := (own - {Hand(pa)})[Slot(pt, pti) := pa];
      assert G() == Put(g, pt, pti, UserWord(pa));
    }

    /** map */
    method Map(pd: nat, va: nat, pa: nat) returns (r: Outcome<()>)
      requires Inv() && LiveDir(G(), k, pd) && va < ADDRESSES && !Leaf(pm.mem, pd, Pdi(va), Pti(va)).p
      requires InFlight(G(), pa, Pdi(va) * WORDS_PER_FRAME + Pti(va)) && pm.mem[pa] == ZeroFrame()
      modifies this, pm, pm.refs
      ensures r.Panicked? ==> pm.Stuck()
      ensures r.Running? ==> Inv() && Mapped(old(G()), G(), k, pd, Pdi(va), Pti(va), pa)
    {
      hide Good, Valid, Wf, LiveDir, InFlight, Mapped, Owns, Leaf, Pdi, Pti;
      Indices(va);
      ghost var g := G();
      var pdi, pti := Pdi(va), Pti(va);
      ghost var a := pdi * WORDS_PER_FRAME + pti;
      var _ :- OwnTable(pd, pdi, pa, a);
      ghost var g1 := G();
      OwnsInFlight(g, g1, k, pd, pdi, pti, pa, a);
      LiveDirKnown(g1, k, pd);
      var pt := pm.mem[pd].ws[pdi].frame;
      EnterPage(pd, pdi, pt, pti, pa);
      OwnsMapped(g, g1, G(), k, pd, pdi, pti, pa);
      return Running(());
    }

    /** map_copy, a page was mapped read-only: it is copied and its reference given up. */
    method CopyOver(pd: nat, pdi: nat, pt: nat, pti: nat, pa: nat)
      requires Inv() && TableOf(pd, pdi, pt) && pti < WORDS_PER_FRAME
      requires Names(Ent(pm.mem, pt, pti)) && InFlight(G(), pa, pdi * WORDS_PER_FRAME + pti)
      modifies this, pm, pm.refs
      ensures Inv() && Mapped(old(G()), G(), k, pd, pdi, pti, pa)
    {
      hide Good, Valid, Wf, LiveDir, InFlight, Mapped, Shrinks, Elsewhere, SameView;
      ghost var g, a := G(), pdi * WORDS_PER_FRAME + pti;
      PageToCopy(g, kpd, k, pd, pdi, pt, pti, pa, a);
      var pte := pm.mem[pt].ws[pti];
      pm.WriteFrame(pa, pm.mem[pte.frame]);
      ghost var g1 := G();
      FillPage(g, g1, kpd, k, pd, pa, a, g.mem[pte.frame]);
      PageToDrop(g1, kpd, k, pd, pdi, pt, pti, pa, a);
      own := (own - {Slot(pt, pti)})[Hand(pte.frame) := pte.frame];
      ghost var z := Slot(pt, pti);
      assert M(z) == Take(g1, pt, pti);
      DropPage(pte.frame, Hand(pte.frame), z);
      ghost var g2, m := M(z), pm.mem;
      MaskedSame(G(), z);
      CopiedOver(g1, g2, kpd, k, pd, pdi, pti, pt, pa);
      SetTwice(m, pt, pti, ZERO_WORD, UserWord(pa));
      pm.WriteWord(pt, pti, UserWord(pa));
      own := (own - {Hand(pa)})[Slot(pt, pti) := pa];
      assert G() == Put(g2, pt, pti, UserWord(pa));
      FilledMapped(g, g1, G(), k, pd, pdi, pti, pa);
    }

    /** map_copy: a page that is mapped read-only is replaced by a writable copy; a writable one ends
        the process and leaves pa unmapped. */
    method MapCopy(pd: nat, va: nat, pa: nat) returns (r: Outcome<Verdict>)
      requires Inv() && LiveDir(G(), k, pd) && va < ADDRESSES
      requires InFlight(G(), pa, Pdi(va) * WORDS_PER_FRAME + Pti(va)) && pm.mem[pa] == ZeroFrame()
      modifies this, pm, pm.refs
      ensures r.Panicked? ==> pm.Stuck()
      ensures r.Running? ==> Inv()
      ensures r.Running? ==> var leaf := Leaf(old(pm.mem), pd, Pdi(va), Pti(va));
        (r.value == Exited <==> leaf.p && leaf.rw)
      ensures r.Running? && r.value == Resumed ==> Mapped(old(G()), G(), k, pd, Pdi(va), Pti(va), pa)
      ensures r.Running? && r.value == Exited ==>
        LiveDir(G(), k, pd) && SameView(old(G()), G(), pd, pd) && Elsewhere(old(G()), G(), pd) &&
            HandLeaked(old(G()), G(), pa)
    {
      hide Good, Valid, Wf, LiveDir, InFlight, Mapped, Owns, Leaf, Pdi, Pti, SameView, Elsewhere, HandLeaked;
      Indices(va);
      ghost var g := G();
      var pdi, pti := Pdi(va), Pti(va);
      ghost var a := pdi * WORDS_PER_FRAME + pti;
      var _ :- OwnTable(pd, pdi, pa, a);
      ghost var g1 := G();
      OwnsInFlight(g, g1, k, pd, pdi, pti, pa, a);
      LiveDirKnown(g1, k, pd);
      TabsKnown(g1, kpd, k, pd, pdi);
      Known(g1, kpd, k);
      var pt := pm.mem[pd].ws[pdi].frame;
      var pte := pm.mem[pt].ws[pti];
      if pte.p {
        if pte.rw {
          LeakPage(g1, kpd, k, pd, pa, a);
          own := (own - {Hand(pa)})[Leaked(pa) := pa];
          assert G() == Rename(g1, pa, Leaked(pa));
          OwnsLeaked(g, g1, G(), k, pd, pdi, pa);
          return Running(Exited);
        }
        ReadOnlyPrivate(g1, kpd, k, pt, pti);
        CopyOver(pd, pdi, pt, pti, pa);
      } else {
        EnterPage(pd, pdi, pt, pti, pa);
      }
      OwnsMapped(g, g1, G(), k, pd, pdi, pti, pa);
      return Running(Resumed);
    }

    /** vmm_pageFault, for a fault the hardware raised on access acc: either the page is now writable
        and nobody sees a difference, or the address is not the process's to touch and it exits. One page
        is left behind if a user program wrote to a kernel page in the upper half, and none otherwise. */
    method PageFault(pd: nat, va: nat, code: ErrorCode, ghost acc: Access) returns (r: Outcome<Verdict>)
      requires Inv() && NoHands(own) && LiveDir(G(), k, pd) && va < ADDRESSES
      requires Translate(pm.mem, pd, Pdi(va), Pti(va), acc) == Fault(code)
      requires acc.user || !KMaps(k, Pdi(va), Pti(va))
      modifies this, pm, pm.refs
      ensures r.Panicked? ==> pm.Stuck()
      ensures r.Running? ==> Inv() && NoHands(own)
      ensures r.Running? ==> (r.value == Exited <==> va < USER_BASE || KMaps(k, Pdi(va), Pti(va)))
      ensures r.Running? && r.value == Resumed ==> Resolved(old(G()), G(), k, pd, Pdi(va), Pti(va))
      ensures r.Running? && r.value == Exited ==> GivenUp(old(G()), G(), k, pd)
      ensures r.Running? && LeakyAccess(k, va, acc) ==> OneLeak(old(G()), G())
      ensures r.Running? && !LeakyAccess(k, va, acc) ==> Leaks(G()) == Leaks(old(G()))
    {
      hide Good, Valid, Wf, LiveDir, InFlight, Mapped, Leaf, Pdi, Pti, SameView, Elsewhere, HandLeaked, KMaps,
           Resolved, GivenUp, Translate, Allocated, OneLeak, Leaks;
      Indices(va);
      ghost var g := G();
      ghost var pdi, pti := Pdi(va), Pti(va);
      ghost var a := pdi * WORDS_PER_FRAME + pti;
      FaultMeaning(g, kpd, k, pd, pdi, pti, acc);
      GivenUpRefl(g, k, pd);
      if va == 0 {
        return Running(Exited);
      }
      if code.p && !code.wr && code.us {
        return Running(Exited);
      }
      if va < USER_BASE {
        return Running(Exited);
      }
      if code.p && code.wr {
        var pa :- Alloc(Page, a);
        ghost var g1 := G();
        AllocInFlight(g, g1, kpd, k, pa, a, pd, pdi);
        LeafAt(g, g1, pd, pdi, pti);
        ZeroAfter(g, g1, pa, Page, a);
        var verdict :- MapCopy(pd, va, pa);
        if verdict == Resumed {
          AllocResolved(g, g1, G(), k, pd, pdi, pti, pa, a);
        } else {
          AllocGivenUp(g, g1, G(), kpd, k, pd, pa, a);
        }
        return Running(verdict);
      }
      if code.p {
        return Running(Exited);
      }
      var pa :- Alloc(Page, a);
      ghost var g1 := G();
      AllocInFlight(g, g1, kpd, k, pa, a, pd, pdi);
      LeafAt(g, g1, pd, pdi, pti);
      ZeroAfter(g, g1, pa, Page, a);
      var _ :- Map(pd, va, pa);
      AllocResolved(g, g1, G(), k, pd, pdi, pti, pa, a);
      return Running(Resumed);
    }

    /** copy_kpd: the directory of a process without memory. */
    method CopyKpd() returns (r: Outcome<nat>)
      requires Inv()
      modifies this, pm, pm.refs
      ensures r.Panicked? ==> pm.Stuck()
      ensures r.Running? ==> Inv() && Grown(old(G()), G(), r.value) && Building(G(), r.value, Dir, 0)
      ensures r.Running? ==> LiveDir(G(), k, r.value) && SpaceIs(pm.mem, r.value, map[])
    {
      hide Good, Valid, Wf, LiveDir, SpaceIs, Grown, Building;
      ghost var g := G();
      var d :- Alloc(Dir, 0);
      ghost var g1 := G();
      KpdStays(g, g1, kpd, k);
      KpdCopied(g, g1, kpd, k, d);
      pm.WriteFrame(d, pm.mem[kpd]);
      return Running(d);
    }

    /** A new directory becomes the cr3 of process pid. */
    ghost method Adopt(d: nat, pid: nat)
      modifies this
      ensures G() == Rename(old(G()), d, Root(pid))
    {
      own := (own - {Hand(d)})[Root(pid) := d];
    }
  }
}
