/** The steps of kernel/vmm.cc as relations between graphs. */
module VmmSteps {
  import opened Frames
  import opened PhysMem
  import opened PageGraph

  // ---------- the kernel's own tables ----------

  /** The kernel's directory and tables sit in frames that nobody counts, with fixed content. */
  ghost predicate KernelThere(g: Graph, kpd: nat, k: Kernel) {
    && IsHeld(g, kpd) && g.mem[kpd] == Words(k.dir)
    && forall i :: 0 <= i < WORDS_PER_FRAME && KDir(k, i) ==> KernelTable(g, k, i)
  }

  ghost predicate IsHeld(g: Graph, f: nat) {
    f in g.client && Fixed(g.client[f]) && f in g.mem
  }

  ghost predicate KernelTable(g: Graph, k: Kernel, i: nat)
    requires KDir(k, i)
  {
    IsHeld(g, k.dir[i].frame) && i < |k.tabs| && g.mem[k.dir[i].frame] == Words(k.tabs[i])
  }

  /** Clients of both states keep their content, and uncounted frames stay uncounted. */
  ghost predicate MemKept(g: Graph, g': Graph) {
    forall f :: f in g.client && f in g'.client && f in g.mem ==> f in g'.mem && g'.mem[f] == g.mem[f]
  }

  ghost predicate HeldKept(g: Graph, g': Graph) {
    forall f :: IsHeld(g, f) ==> IsHeld(g', f) && g'.mem[f] == g.mem[f]
  }

  lemma KernelKept(g: Graph, g': Graph, kpd: nat, k: Kernel)
    requires KernelThere(g, kpd, k) && HeldKept(g, g')
    ensures KernelThere(g', kpd, k)
  {
    forall i | 0 <= i < WORDS_PER_FRAME && KDir(k, i) ensures KernelTable(g', k, i) {
      assert KernelTable(g, k, i);
    }
  }

  ghost predicate Good(g: Graph, kpd: nat, k: Kernel) {
    Wf(g, k) && KernelThere(g, kpd, k)
  }

  /** A state that agrees with a good one on every frame that matters is good. */
  lemma Agree(g: Graph, gs: Graph, g': Graph, kpd: nat, k: Kernel)
    requires Wf(gs, k) && KernelThere(g, kpd, k) && HeldKept(g, g')
    requires g' == gs.(mem := g'.mem)
    requires forall f :: f in gs.kind ==> f in g'.mem && f in gs.mem && g'.mem[f] == gs.mem[f]
    ensures Good(g', kpd, k)
  {
    hide Wf;
    Closed(gs, k);
    WfMem(gs, k, g'.mem);
    KernelKept(g, g', kpd, k);
  }

  lemma Known(g: Graph, kpd: nat, k: Kernel)
    requires Good(g, kpd, k)
    ensures forall f :: f in g.kind ==>
        f in g.client && !Fixed(g.client[f]) && f in g.at && f in g.mem && IsTable(g.mem, f)
    ensures forall r :: r in g.own ==> g.own[r] in g.kind
    ensures forall f :: f in g.client && !Fixed(g.client[f]) ==> f in g.kind
  {
    Closed(g, k);
  }

  // ---------- the allocator's steps seen by the graph ----------

  lemma AllocStep(g: Graph, g': Graph, kpd: nat, k: Kernel, p: nat, kd: Kind, a: nat)
    requires Good(g, kpd, k) && p !in g.client && (kd.Dir? || kd.Tab? || kd.Page?) && (kd.Page? ==> a >= USER_PAGES)
    requires g'.client == g.client[p := Counted(1)] && g'.own == g.own[Hand(p) := p]
    requires g'.kind == g.kind[p := kd] && g'.at == g.at[p := a]
    requires MemKept(g, g') && p in g'.mem && g'.mem[p] == ZeroFrame()
    ensures Good(g', kpd, k) && Hand(p) !in g.own && p !in g.kind
  {
    hide Wf;
    Known(g, kpd, k);
    NewFrameOk(g, k, p, kd, a);
    Agree(g, NewFrame(g, p, kd, a), g', kpd, k);
  }

  ghost predicate Allocated(g: Graph, g': Graph, p: nat, kd: Kind, a: nat) {
    && p !in g.client && p !in g.kind && Hand(p) !in g.own
    && p in g'.mem && g'.mem[p] == ZeroFrame() && MemKept(g, g')
    && g'.client == g.client[p := Counted(1)] && g'.own == g.own[Hand(p) := p]
    && g'.kind == g.kind[p := kd] && g'.at == g.at[p := a]
  }

  // ---------- growing a table ----------

  /** No directory or table is on its way out. */
  ghost predicate Settled(g: Graph) {
    forall f :: f in g.kind ==> !g.kind[f].OldTab? && !g.kind[f].OldDir?
  }

  ghost predicate StaysSettled(g: Graph, g': Graph) {
    Settled(g) ==> Settled(g')
  }

  /** Nothing the graph knew changed, except the content of x; new references sit in x and in new tables. */
  ghost predicate Grows(g: Graph, g': Graph, x: nat) {
    && HeldKept(g, g')
    && (forall f :: f in g.kind ==>
        SameTable(g, g', f) && f in g'.mem && (f != x && f in g.mem ==> g'.mem[f] == g.mem[f]))
    && (forall r :: r in g.own ==> r in g'.own && g'.own[r] == g.own[r])
    && (forall r :: r in g'.own && r !in g.own ==> r.Slot? && (r.table == x || r.table !in g.kind))
    && HandsKept(g, g') && StaysSettled(g, g')
  }

  /** A frame that only a local variable refers to stays that way. */
  ghost predicate HandsKept(g: Graph, g': Graph) {
    forall f :: f in g.kind && Sole(g.own, f, Hand(f)) ==> Sole(g'.own, f, Hand(f))
  }

  /** x is under construction: nothing but a local variable refers to it. */
  ghost predicate Building(g: Graph, x: nat, kd: Kind, a: nat) {
    && x in g.kind && g.kind[x] == kd && x in g.at && g.at[x] == a && IsTable(g.mem, x)
    && Hand(x) in g.own && g.own[Hand(x)] == x && Sole(g.own, x, Hand(x))
  }

  /** e' is the copy of entry e: kernel entries and read-only entries as they are, the content of a
      writable private frame in a fresh frame. */
  ghost predicate CopiedWord(g: Graph, g': Graph, x: nat, e: Word, e': Word) {
    if !e.p then e' == ZERO_WORD
    else if Names(e) && e.rw then
      && e' == e.(frame := e'.frame) && e'.frame !in g.kind && e'.frame in g'.kind && e'.frame != x
      && e.frame in g.mem && e'.frame in g'.mem && g'.mem[e'.frame] == g.mem[e.frame]
    else e' == e
  }

  /** Index i of x has just been filled with a copy of e. */
  ghost predicate Filled(g: Graph, g': Graph, x: nat, i: nat, e: Word) {
    && Grows(g, g', x)
    && CopiedWord(g, g', x, e, Ent(g'.mem, x, i))
    && forall j :: j != i ==> Ent(g'.mem, x, j) == Ent(g.mem, x, j)
  }

  /** A new reference to a frame that is new, or that a table entry r already names, keeps it so. */
  lemma HandsAdd(g: Graph, g': Graph, q: Ref, f: nat, r: Ref)
    requires forall p :: p in g'.own && (p != q || g'.own[p] != f) ==> p in g.own && g'.own[p] == g.own[p]
    requires f in g.kind ==> r.Slot? && r in g.own && g.own[r] == f
    ensures HandsKept(g, g')
  {
  }

  lemma SettledTrans(g0: Graph, g1: Graph, g2: Graph, p: nat, kd: Kind)
    requires StaysSettled(g1, g2) && g1.kind == g0.kind[p := kd] && (kd.Dir? || kd.Tab?)
    ensures StaysSettled(g0, g2)
  {
  }

  lemma HandsTrans(g0: Graph, g1: Graph, g2: Graph, p: nat)
    requires HandsKept(g1, g2) && g1.kind.Keys == g0.kind.Keys + {p} && p !in g0.kind
    requires g1.own == g0.own[Hand(p) := p]
    ensures HandsKept(g0, g2)
  {
    forall f | f in g0.kind && Sole(g0.own, f, Hand(f)) ensures Sole(g2.own, f, Hand(f)) {
      assert Sole(g1.own, f, Hand(f));
    }
  }

  lemma GrowsRefl(g: Graph, x: nat)
    requires forall f :: f in g.kind ==> f in g.at && f in g.mem
    ensures Grows(g, g, x)
  {
  }

  lemma GrowsTrans(g0: Graph, g1: Graph, g2: Graph, x: nat)
    requires Grows(g0, g1, x) && Grows(g1, g2, x)
    ensures Grows(g0, g2, x)
  {
  }

  /** Table t being filled at index a may receive entry i of the source table s. */
  ghost predicate CopySource(g: Graph, k: Kernel, s: nat, t: nat, a: nat) {
    && s != t && IsTable(g.mem, s)
    && ((s in g.kind && g.kind[s].Tab? && s in g.at && g.at[s] == a)
        || (KDir(k, a) && s == k.dir[a].frame && IsHeld(g, s)))
  }

  ghost predicate PageOfSlot(g: Graph, s: nat, a: nat, i: nat, f: nat) {
    && Slot(s, i) in g.own && g.own[Slot(s, i)] == f && f in g.kind && g.kind[f].Page? && f in g.mem
    && f in g.client && g.client[f].Counted?
    && f in g.at && g.at[f] == a * WORDS_PER_FRAME + i && a * WORDS_PER_FRAME + i >= USER_PAGES
  }

  /** An entry of the source is absent, a kernel entry, or a private entry the graph accounts for. */
  lemma SourceEntry(g: Graph, kpd: nat, k: Kernel, s: nat, t: nat, a: nat, i: nat)
    requires Good(g, kpd, k) && CopySource(g, k, s, t, a) && i < WORDS_PER_FRAME
    ensures var e := Ent(g.mem, s, i);
            && (e.p && e.g ==> !e.ng && KMaps(k, a, i) && e == k.tabs[a][i])
            && (e.p && !e.g ==> Names(e) && s in g.kind && e.us && !KMaps(k, a, i) && PageOfSlot(g, s, a, i, e.frame))
  {
    var e := Ent(g.mem, s, i);
    if s in g.kind {
      assert EntryOk(g, k, s, i);
      assert Slot(s, i) in g.own ==> RefOk(g, Slot(s, i)) && FrameOk(g, g.own[Slot(s, i)]);
      assert KMaps(k, a, i) ==> KernelWord(k.tabs[a][i]);
    } else {
      assert KernelTable(g, k, a);
      assert a < WORDS_PER_FRAME;
      assert KernelTableOk(k.dir[a], k.tabs[a]);
      assert KernelWord(k.tabs[a][i]);
    }
  }

  lemma FillGlobal(g: Graph, kpd: nat, k: Kernel, s: nat, t: nat, a: nat, i: nat)
    requires Good(g, kpd, k) && CopySource(g, k, s, t, a) && i < WORDS_PER_FRAME
    requires Building(g, t, Tab, a) && !Ent(g.mem, t, i).p
    requires Ent(g.mem, s, i).p && Ent(g.mem, s, i).g
    ensures var e := Ent(g.mem, s, i);
            var g' := Rewrite(g, t, i, e);
            Good(g', kpd, k) && Building(g', t, Tab, a) && Filled(g, g', t, i, e)
  {
    hide Wf, KernelThere, KMaps, KDir;
    SourceEntry(g, kpd, k, s, t, a, i);
    var e := Ent(g.mem, s, i);
    Known(g, kpd, k);
    CopyGlobalOk(g, k, t, i);
    SetEntOne(g.mem, t, i, e);
    KernelKept(g, Rewrite(g, t, i, e), kpd, k);
  }

  lemma FillShared(g: Graph, g': Graph, kpd: nat, k: Kernel, s: nat, t: nat, a: nat, i: nat)
    requires Good(g, kpd, k) && CopySource(g, k, s, t, a) && i < WORDS_PER_FRAME
    requires Building(g, t, Tab, a) && !Ent(g.mem, t, i).p
    requires Ent(g.mem, s, i).p && !Ent(g.mem, s, i).g && !Ent(g.mem, s, i).rw
    requires SharedInto(g, g', t, i, Ent(g.mem, s, i))
    ensures Good(g', kpd, k) && Building(g', t, Tab, a) && Filled(g, g', t, i, Ent(g.mem, s, i))
  {
    hide Wf, KernelThere, KMaps, KDir, Grows, HandsKept;
    var e := Ent(g.mem, s, i);
    SourceEntry(g, kpd, k, s, t, a, i);
    Known(g, kpd, k);
    NamedSlot(g, k, t, i);
    ShareOk(g, k, s, t, i);
    SetEntOne(g.mem, t, i, e);
    SharedHeld(g, g', t, i, e);
    Agree(g, Share(g, t, i, e), g', kpd, k);
    HandsAdd(g, g', Slot(t, i), e.frame, Slot(s, i));
    SharedGrows(g, g', t, i, e);
  }

  /** Entry i of t is now e, and the frame e names has one more reference. */
  ghost predicate SharedInto(g: Graph, g': Graph, t: nat, i: nat, e: Word) {
    && IsTable(g.mem, t) && i < WORDS_PER_FRAME
    && g'.client == g.client[e.frame := Counted(CountOf(g.client, e.frame) + 1)]
    && g'.own == g.own[Slot(t, i) := e.frame] && g'.kind == g.kind && g'.at == g.at
    && MemKept(Rewrite(g, t, i, e), g')
  }

  lemma SharedHeld(g: Graph, g': Graph, t: nat, i: nat, e: Word)
    requires SharedInto(g, g', t, i, e) && t in g.client && !Fixed(g.client[t])
    requires e.frame in g.client && !Fixed(g.client[e.frame]) && e.frame != t
    ensures HeldKept(g, g')
    ensures forall j :: Ent(g'.mem, t, j) == if j == i then e else Ent(g.mem, t, j)
  {
    SetEntOne(g.mem, t, i, e);
  }

  lemma SharedGrows(g: Graph, g': Graph, t: nat, i: nat, e: Word)
    requires SharedInto(g, g', t, i, e) && HandsKept(g, g') && HeldKept(g, g')
    requires forall f :: f in g.kind ==> f in g.client && f in g.mem && f in g.at
    requires Slot(t, i) !in g.own && e.frame in g.client
    ensures Grows(g, g', t)
  {
    hide HandsKept, HeldKept;
    SetEntOne(g.mem, t, i, e);
  }

  /** A private page, copied from another and still held in a local variable. */
  ghost predicate PageCopied(g: Graph, g': Graph, p: nat, src: nat, a: nat) {
    && p !in g.client && p !in g.kind && Hand(p) !in g.own && src in g.mem
    && p in g'.mem && g'.mem[p] == g.mem[src] && MemKept(g, g')
    && g'.client == g.client[p := Counted(1)] && g'.own == g.own[Hand(p) := p]
    && g'.kind == g.kind[p := Page] && g'.at == g.at[p := a]
  }

  lemma CopyPageStep(g: Graph, g1: Graph, g': Graph, kpd: nat, k: Kernel, p: nat, src: nat, a: nat)
    requires Good(g, kpd, k) && Good(g1, kpd, k) && Allocated(g, g1, p, Page, a)
    requires src in g.client && IsTable(g.mem, src) && g' == g1.(mem := g1.mem[p := g.mem[src]])
    ensures Good(g', kpd, k) && PageCopied(g, g', p, src, a)
  {
    hide Wf, KernelThere;
    Known(g1, kpd, k);
    KernelKept(g1, g', kpd, k);
    WfMem(g1, k, g'.mem);
  }

  /** Nothing maps a table under construction, so writable entries may go into it. */
  lemma BuildingWritable(g: Graph, k: Kernel, t: nat, kd: Kind, a: nat)
    requires Wf(g, k) && Building(g, t, kd, a)
    ensures WritableTable(g, t)
  {
    hide Wf;
    AllNamed(g, k);
  }

  lemma AllNamed(g: Graph, k: Kernel)
    requires Wf(g, k)
    ensures forall t, i :: LiveTable(g, t) && 0 <= i < WORDS_PER_FRAME && Names(Ent(g.mem, t, i)) ==>
      Slot(t, i) in g.own && g.own[Slot(t, i)] == Ent(g.mem, t, i).frame
  {
    hide Wf;
    forall t, i | LiveTable(g, t) && 0 <= i < WORDS_PER_FRAME && Names(Ent(g.mem, t, i))
      ensures Slot(t, i) in g.own && g.own[Slot(t, i)] == Ent(g.mem, t, i).frame
    {
      NamedSlot(g, k, t, i);
    }
  }

  lemma FillCopied(g: Graph, g1: Graph, kpd: nat, k: Kernel, s: nat, t: nat, a: nat, i: nat, p: nat)
    requires Good(g, kpd, k) && CopySource(g, k, s, t, a) && i < WORDS_PER_FRAME
    requires Building(g, t, Tab, a) && !Ent(g.mem, t, i).p
    requires var e := Ent(g.mem, s, i);
             && e.p && !e.g && e.rw && Good(g1, kpd, k)
             && PageCopied(g, g1, p, e.frame, a * WORDS_PER_FRAME + i)
    ensures IsTable(g1.mem, t)
    ensures var e := Ent(g.mem, s, i);
            var g' := Put(g1, t, i, e.(frame := p));
            Good(g', kpd, k) && Building(g', t, Tab, a) && Filled(g, g', t, i, e)
  {
    hide Good, KMaps, KDir, PageCopied, Filled, Building, Putable;
    var e := Ent(g.mem, s, i);
    SourceEntry(g, kpd, k, s, t, a, i);
    var e' := e.(frame := p);
    CopiedPutable(g, g1, kpd, k, t, a, i, p, e);
    GoodPut(g1, kpd, k, t, i, e');
    CopiedFilled(g, g1, kpd, k, t, a, i, p, e);
  }

  lemma GoodPut(g: Graph, kpd: nat, k: Kernel, t: nat, i: nat, e: Word)
    requires Good(g, kpd, k) && Putable(g, k, t, i, e)
    ensures IsTable(g.mem, t) && Good(Put(g, t, i, e), kpd, k)
  {
    hide Wf, KernelThere, KMaps, KDir;
    Known(g, kpd, k);
    PutOk(g, k, t, i, e);
    SetEntOne(g.mem, t, i, e);
    KernelKept(g, Put(g, t, i, e), kpd, k);
  }

  lemma CopiedPutable(g: Graph, g1: Graph, kpd: nat, k: Kernel, t: nat, a: nat, i: nat, p: nat, e: Word)
    requires Good(g, kpd, k) && Good(g1, kpd, k) && i < WORDS_PER_FRAME
    requires Building(g, t, Tab, a) && !Ent(g.mem, t, i).p
    requires Names(e) && !e.g && e.us && !KMaps(k, a, i)
    requires PageCopied(g, g1, p, e.frame, a * WORDS_PER_FRAME + i)
    ensures Building(g1, t, Tab, a) && Putable(g1, k, t, i, e.(frame := p)) && g1.mem[t] == g.mem[t]
  {
    hide Wf, KernelThere, KMaps, KDir;
    Known(g, kpd, k);
    Known(g1, kpd, k);
    assert Building(g1, t, Tab, a);
    BuildingWritable(g1, k, t, Tab, a);
    ContentKept(g.mem, g1.mem, t);
  }

  lemma CopiedFilled(g: Graph, g1: Graph, kpd: nat, k: Kernel, t: nat, a: nat, i: nat, p: nat, e: Word)
    requires Good(g, kpd, k) && i < WORDS_PER_FRAME
    requires Building(g, t, Tab, a) && Building(g1, t, Tab, a) && t in g1.mem && g1.mem[t] == g.mem[t]
    requires Names(e) && e.rw && !Ent(g.mem, t, i).p
    requires PageCopied(g, g1, p, e.frame, a * WORDS_PER_FRAME + i)
    ensures var g' := Put(g1, t, i, e.(frame := p));
            Building(g', t, Tab, a) && Filled(g, g', t, i, e)
  {
    hide Wf, KernelThere, HandsKept, StaysSettled, Filled;
    Known(g, kpd, k);
    NamedSlot(g, k, t, i);
    CopiedFill(g, g1, kpd, k, t, a, i, p, e);
  }

  lemma CopiedFill(g: Graph, g1: Graph, kpd: nat, k: Kernel, t: nat, a: nat, i: nat, p: nat, e: Word)
    requires Good(g, kpd, k) && i < WORDS_PER_FRAME
    requires Building(g, t, Tab, a) && Building(g1, t, Tab, a) && t in g1.mem && g1.mem[t] == g.mem[t]
    requires Names(e) && e.rw && !Ent(g.mem, t, i).p
    requires PageCopied(g, g1, p, e.frame, a * WORDS_PER_FRAME + i)
    ensures Filled(g, Put(g1, t, i, e.(frame := p)), t, i, e)
  {
    hide Good, Grows, Ent, SetEnt;
    CopiedGrows(g, g1, kpd, k, t, a, i, p, e);
    ContentKept(g.mem, g1.mem, t);
    SetEntOne(g1.mem, t, i, e.(frame := p));
  }

  lemma CopiedGrows(g: Graph, g1: Graph, kpd: nat, k: Kernel, t: nat, a: nat, i: nat, p: nat, e: Word)
    requires Good(g, kpd, k) && i < WORDS_PER_FRAME
    requires Building(g, t, Tab, a) && Building(g1, t, Tab, a) && t in g1.mem && g1.mem[t] == g.mem[t]
    requires Names(e) && e.rw && !Ent(g.mem, t, i).p
    requires PageCopied(g, g1, p, e.frame, a * WORDS_PER_FRAME + i)
    ensures Grows(g, Put(g1, t, i, e.(frame := p)), t)
  {
    hide Wf, KernelThere, HandsKept, StaysSettled, IsTable, Ent, SetEnt, Sole, RefsTo;
    Known(g, kpd, k);
    NamedSlot(g, k, t, i);
    SetEntOne(g1.mem, t, i, e.(frame := p));
    CopiedHands(g, g1, t, a, i, p, e);
    NewPageSettled(g, Put(g1, t, i, e.(frame := p)), p);
  }

  lemma CopiedHands(g: Graph, g1: Graph, t: nat, a: nat, i: nat, p: nat, e: Word)
    requires IsTable(g1.mem, t) && i < WORDS_PER_FRAME
    requires PageCopied(g, g1, p, e.frame, a * WORDS_PER_FRAME + i)
    ensures HandsKept(g, Put(g1, t, i, e.(frame := p)))
  {
    hide HandsKept, IsTable, Ent, SetEnt, MemKept;
    HandsAdd(g, Put(g1, t, i, e.(frame := p)), Slot(t, i), p, Slot(t, i));
  }

  lemma NewPageSettled(g: Graph, g': Graph, p: nat)
    requires g'.kind == g.kind[p := Page]
    ensures StaysSettled(g, g')
  {
  }

  // ---------- a whole table ----------

  /** The content a private entry leads to; an unmapped page reads as zeros. */
  ghost function PageOf(mem: Memory, w: Word): Frame {
    if Names(w) && w.frame in mem then mem[w.frame] else ZeroFrame()
  }

  ghost predicate SourceTable(g: Graph, k: Kernel, s: nat, a: nat) {
    && IsTable(g.mem, s)
    && ((s in g.kind && g.kind[s].Tab? && s in g.at && g.at[s] == a)
        || (KDir(k, a) && s == k.dir[a].frame && IsHeld(g, s)))
  }

  /** The first n entries of t are copies of those of s, the others are still empty. */
  ghost predicate Prefix(g0: Graph, g: Graph, s: nat, t: nat, n: nat) {
    && (forall j :: 0 <= j < n ==> CopiedWord(g0, g, t, Ent(g0.mem, s, j), Ent(g.mem, t, j)))
    && (forall j :: n <= j < WORDS_PER_FRAME ==> Ent(g.mem, t, j) == ZERO_WORD)
  }

  /** Nothing the graph knew changed; new references hold x or sit in new tables. */
  ghost predicate Grown(g: Graph, g': Graph, x: nat) {
    && HeldKept(g, g') && x !in g.kind && x !in g.client
    && (forall f :: f in g.kind ==> SameTable(g, g', f) && f in g.mem && f in g'.mem && g'.mem[f] == g.mem[f])
    && (forall r :: r in g.own ==> r in g'.own && g'.own[r] == g.own[r])
    && (forall r :: r in g'.own && r !in g.own ==> r == Hand(x) || (r.Slot? && r.table !in g.kind))
    && HandsKept(g, g') && StaysSettled(g, g')
  }

  ghost predicate TableCopied(g: Graph, g': Graph, s: nat, t: nat, a: nat) {
    && Grown(g, g', t) && Building(g', t, Tab, a)
    && forall j :: 0 <= j < WORDS_PER_FRAME ==> CopiedWord(g, g', t, Ent(g.mem, s, j), Ent(g'.mem, t, j))
  }

  lemma CopyStart(g: Graph, g': Graph, kpd: nat, k: Kernel, s: nat, t: nat, a: nat)
    requires Good(g, kpd, k) && SourceTable(g, k, s, a) && Allocated(g, g', t, Tab, a)
    ensures Grows(g', g', t) && Building(g', t, Tab, a) && CopySource(g', k, s, t, a)
    ensures Prefix(g', g', s, t, 0)
  {
    hide Wf, KDir, Grows;
    Known(g, kpd, k);
    GrowsRefl(g', t);
  }

  lemma PrefixEmpty(g0: Graph, g: Graph, s: nat, t: nat, n: nat)
    requires Prefix(g0, g, s, t, n) && n < WORDS_PER_FRAME
    ensures Ent(g.mem, t, n) == ZERO_WORD
  {
  }

  lemma CopyRound(g0: Graph, g: Graph, g': Graph, kpd: nat, k: Kernel, s: nat, t: nat, a: nat, i: nat)
    requires Good(g0, kpd, k) && Building(g0, t, Tab, a)
    requires Grows(g0, g, t) && Prefix(g0, g, s, t, i) && i < WORDS_PER_FRAME
    requires CopySource(g0, k, s, t, a) && CopySource(g, k, s, t, a)
    requires Filled(g, g', t, i, Ent(g.mem, s, i))
    ensures Grows(g0, g', t) && Prefix(g0, g', s, t, i + 1) && CopySource(g', k, s, t, a)
  {
    hide KDir, Good;
    GrowsTrans(g0, g, g', t);
    assert Ent(g.mem, s, i) == Ent(g0.mem, s, i);
    SourceEntry(g0, kpd, k, s, t, a, i);
    forall j | 0 <= j < i + 1 ensures CopiedWord(g0, g', t, Ent(g0.mem, s, j), Ent(g'.mem, t, j)) {
      if j < i {
        assert CopiedWord(g0, g, t, Ent(g0.mem, s, j), Ent(g.mem, t, j));
      } else {
        assert CopiedWord(g, g', t, Ent(g.mem, s, i), Ent(g'.mem, t, i));
      }
    }
  }

  lemma CopyEnd(g: Graph, g0: Graph, g': Graph, kpd: nat, k: Kernel, s: nat, t: nat, a: nat)
    requires Good(g, kpd, k) && SourceTable(g, k, s, a) && Allocated(g, g0, t, Tab, a)
    requires Grows(g0, g', t) && Prefix(g0, g', s, t, WORDS_PER_FRAME) && Building(g', t, Tab, a)
    ensures TableCopied(g, g', s, t, a)
  {
    hide Good, KDir, Grown, Building, Grows, CopiedWord;
    GrownFrom(g, g0, g', kpd, k, t, Tab, a);
    forall j | 0 <= j < WORDS_PER_FRAME ensures CopiedWord(g, g', t, Ent(g.mem, s, j), Ent(g'.mem, t, j)) {
      CopyEndWord(g, g0, g', kpd, k, s, t, a, j);
    }
  }

  lemma GrownFrom(g: Graph, g0: Graph, g': Graph, kpd: nat, k: Kernel, t: nat, kd: Kind, a: nat)
    requires Good(g, kpd, k) && Allocated(g, g0, t, kd, a) && Grows(g0, g', t) && (kd.Dir? || kd.Tab?)
    ensures Grown(g, g', t)
  {
    hide Good, IsTable, HandsKept, StaysSettled, MemKept;
    HandsTrans(g, g0, g', t);
    SettledTrans(g, g0, g', t, kd);
    GrownFrames(g, g0, g', kpd, k, t, kd, a);
    forall r | r in g.own ensures r in g'.own && g'.own[r] == g.own[r] {
      assert r in g0.own;
    }
  }

  lemma GrownFrames(g: Graph, g0: Graph, g': Graph, kpd: nat, k: Kernel, t: nat, kd: Kind, a: nat)
    requires Good(g, kpd, k) && Allocated(g, g0, t, kd, a) && Grows(g0, g', t)
    ensures HeldKept(g, g')
    ensures forall f :: f in g.kind ==> SameTable(g, g', f) && f in g.mem && f in g'.mem && g'.mem[f] == g.mem[f]
  {
    hide Good, IsTable, HandsKept, StaysSettled;
    Known(g, kpd, k);
    forall f | IsHeld(g, f) ensures IsHeld(g', f) && g'.mem[f] == g.mem[f] {
      assert IsHeld(g0, f);
    }
    forall f | f in g.kind ensures SameTable(g, g', f) && f in g.mem && f in g'.mem && g'.mem[f] == g.mem[f] {
      assert f in g0.kind && f != t && SameTable(g0, g', f);
    }
  }

  lemma CopyEndWord(g: Graph, g0: Graph, g': Graph, kpd: nat, k: Kernel, s: nat, t: nat, a: nat, j: nat)
    requires Good(g, kpd, k) && SourceTable(g, k, s, a) && Allocated(g, g0, t, Tab, a) && j < WORDS_PER_FRAME
    requires CopiedWord(g0, g', t, Ent(g0.mem, s, j), Ent(g'.mem, t, j))
    ensures CopiedWord(g, g', t, Ent(g.mem, s, j), Ent(g'.mem, t, j))
  {
    hide Good, KDir;
    Known(g, kpd, k);
    assert CopySource(g, k, s, t, a);
    SourceEntry(g, kpd, k, s, t, a, j);
  }

  // ---------- what processes see ----------

  /** What page j of table t reads as. */
  ghost function TabPage(mem: Memory, t: nat, j: nat): Frame {
    PageOf(mem, Ent(mem, t, j))
  }

  /** What a process with directory d reads at the page with directory index i and table index j. */
  ghost function View(mem: Memory, d: nat, i: nat, j: nat): Frame {
    if Names(Ent(mem, d, i)) then TabPage(mem, Ent(mem, d, i).frame, j) else ZeroFrame()
  }

  /** t' in g' shows the same pages as t in g. */
  ghost predicate SameTabView(g: Graph, g': Graph, t: nat, t': nat) {
    forall j :: 0 <= j < WORDS_PER_FRAME ==> TabPage(g'.mem, t', j) == TabPage(g.mem, t, j)
  }

  ghost predicate SameView(g: Graph, g': Graph, d: nat, d': nat) {
    forall i, j :: 0 <= i < WORDS_PER_FRAME && 0 <= j < WORDS_PER_FRAME ==>
      View(g'.mem, d', i, j) == View(g.mem, d, i, j)
  }

  /** Every page a table maps is known to the graph. */
  lemma PagesKnown(g: Graph, kpd: nat, k: Kernel, t: nat, j: nat)
    requires Good(g, kpd, k) && t in g.kind && g.kind[t].Tab? && j < WORDS_PER_FRAME
    ensures var w := Ent(g.mem, t, j);
            Names(w) ==> w.frame in g.kind && g.kind[w.frame].Page? && w.frame in g.mem && w.frame in g.client
  {
    hide KernelThere, LinkOk, KernelOk;
    NamedSlot(g, k, t, j);
    if Names(Ent(g.mem, t, j)) {
      NamedFrame(g, k, Slot(t, j));
      assert RefOk(g, Slot(t, j));
    }
  }

  lemma TabsKnown(g: Graph, kpd: nat, k: Kernel, d: nat, i: nat)
    requires Good(g, kpd, k) && d in g.kind && g.kind[d].Dir? && i < WORDS_PER_FRAME
    ensures var w := Ent(g.mem, d, i);
            Names(w) ==>
              w.frame in g.kind && g.kind[w.frame].Tab? && w.frame in g.at && g.at[w.frame] == i && w.frame in g.mem
  {
    hide KernelThere, LinkOk, KernelOk;
    NamedSlot(g, k, d, i);
    if Names(Ent(g.mem, d, i)) {
      NamedFrame(g, k, Slot(d, i));
      assert RefOk(g, Slot(d, i));
    }
  }

  lemma TabViewKept(g: Graph, g': Graph, kpd: nat, k: Kernel, t: nat, x: nat)
    requires Good(g, kpd, k) && Grows(g, g', x) && t != x
    requires t in g.kind && g.kind[t].Tab? && (x in g.kind ==> !g.kind[x].Page?)
    ensures SameTabView(g, g', t, t)
  {
    hide Good;
    Known(g, kpd, k);
    ContentKept(g.mem, g'.mem, t);
    forall j | 0 <= j < WORDS_PER_FRAME ensures TabPage(g'.mem, t, j) == TabPage(g.mem, t, j) {
      PagesKnown(g, kpd, k, t, j);
    }
  }

  /** A copied table shows what its source shows. */
  lemma CopiedTableView(g: Graph, g': Graph, kpd: nat, k: Kernel, s: nat, t: nat, a: nat)
    requires Good(g, kpd, k) && TableCopied(g, g', s, t, a) && s in g.kind && g.kind[s].Tab?
    ensures SameTabView(g, g', s, t)
  {
    hide Good;
    forall j | 0 <= j < WORDS_PER_FRAME ensures TabPage(g'.mem, t, j) == TabPage(g.mem, s, j) {
      assert CopiedWord(g, g', t, Ent(g.mem, s, j), Ent(g'.mem, t, j));
      PagesKnown(g, kpd, k, s, j);
    }
  }
}
