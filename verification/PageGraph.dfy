/**
 * Who refers to which frame: page directories, page tables and pages as a graph whose edges are the
 * references that the counters of PhysMem are meant to count (kernel/vmm.cc).
 */
module PageGraph {
  import opened Frames
  import opened PhysMem
  import opened Sets

  /** The role of a counted frame. A directory or table being destroyed is Old. */
  datatype Kind = Dir | Tab | Page | OldDir | OldTab

  /** One counted reference: a process's cr3, a table entry, a kernel local variable, or a frame
      that was counted but never mapped. */
  datatype Ref = Root(pid: nat) | Slot(table: nat, index: nat) | Hand(f: nat) | Leaked(f: nat)

  /** The kernel's own directory and the tables it names, fixed after boot. */
  datatype Kernel = Kernel(dir: seq<Word>, tabs: seq<seq<Word>>)

  datatype Graph = Graph(
    mem: Memory, client: Clients, own: map<Ref, nat>, kind: map<nat, Kind>, at: map<nat, nat>)

  // ---------- entries ----------

  /** A present entry that is private to a process; only these are counted. */
  predicate Names(w: Word) {
    w.p && w.ng
  }

  predicate IsTable(mem: Memory, t: nat) {
    t in mem && mem[t].Words? && |mem[t].ws| == WORDS_PER_FRAME
  }

  function Ent(mem: Memory, t: nat, i: nat): Word {
    if IsTable(mem, t) && i < WORDS_PER_FRAME then mem[t].ws[i] else ZERO_WORD
  }

  function SetEnt(mem: Memory, t: nat, i: nat, w: Word): Memory
    requires IsTable(mem, t) && i < WORDS_PER_FRAME
  {
    mem[t := Words(mem[t].ws[i := w])]
  }

  lemma SetEntOne(mem: Memory, t: nat, i: nat, w: Word)
    requires IsTable(mem, t) && i < WORDS_PER_FRAME
    ensures t in SetEnt(mem, t, i, w) && Ent(SetEnt(mem, t, i, w), t, i) == w
    ensures forall u, j :: u != t || j != i ==> Ent(SetEnt(mem, t, i, w), u, j) == Ent(mem, u, j)
    ensures forall u :: IsTable(mem, u) ==> IsTable(SetEnt(mem, t, i, w), u)
    ensures forall u :: u in mem && u != t ==> u in SetEnt(mem, t, i, w) && SetEnt(mem, t, i, w)[u] == mem[u]
  {
  }

  ghost predicate KernelWord(w: Word) {
    w.p ==> w.g && w.rw && !w.ng && !w.us
  }

  /** Every kernel entry is global, writable and supervisor-only, and no kernel table is empty. */
  ghost predicate KernelOk(k: Kernel) {
    && |k.dir| == WORDS_PER_FRAME && |k.tabs| == WORDS_PER_FRAME
    && (forall i :: 0 <= i < WORDS_PER_FRAME ==> KernelWord(k.dir[i]) && |k.tabs[i]| == WORDS_PER_FRAME)
    && (forall i :: 0 <= i < WORDS_PER_FRAME ==> KernelTableOk(k.dir[i], k.tabs[i]))
  }

  ghost predicate KernelTableOk(w: Word, tab: seq<Word>) {
    && (forall j :: 0 <= j < |tab| ==> KernelWord(tab[j]))
    && (w.p ==> exists j :: 0 <= j < |tab| && tab[j].p)
  }

  ghost predicate KDir(k: Kernel, i: nat) {
    i < |k.dir| && k.dir[i].p
  }

  ghost predicate KMaps(k: Kernel, i: nat, j: nat) {
    KDir(k, i) && i < |k.tabs| && j < |k.tabs[i]| && k.tabs[i][j].p
  }

  // ---------- the invariant ----------

  ghost function RefsTo(own: map<Ref, nat>, f: nat): set<Ref> {
    set r | r in own && own[r] == f
  }

  /** r is the only reference to f. */
  ghost predicate Sole(own: map<Ref, nat>, f: nat, r: Ref) {
    forall q :: q in own && own[q] == f ==> q == r
  }

  ghost predicate NothingWritable(mem: Memory, t: nat) {
    forall j :: 0 <= j < WORDS_PER_FRAME && Names(Ent(mem, t, j)) ==> !Ent(mem, t, j).rw
  }

  ghost predicate HasKernelEntries(mem: Memory, k: Kernel, t: nat, i: nat) {
    forall j :: 0 <= j < WORDS_PER_FRAME && KMaps(k, i, j) ==> Ent(mem, t, j).p
  }

  /** Exact counts: a frame's counter is the number of references to it, one for a directory. Private
      pages lie in the upper half of the address space. */
  ghost predicate FrameOk(g: Graph, f: nat)
    requires f in g.kind
  {
    && IsTable(g.mem, f) && f in g.at
    && f in g.client
    && g.client[f] == (if g.kind[f].OldTab? then Pending else Counted(|RefsTo(g.own, f)|))
    && (!g.kind[f].OldTab? ==> exists r :: r in g.own && g.own[r] == f)
    && (g.kind[f].Dir? || g.kind[f].OldDir? ==> |RefsTo(g.own, f)| == 1)
    && (g.kind[f].Page? ==> g.at[f] >= USER_PAGES)
  }

  /** Directories refer to tables and tables to pages, always at the same virtual place. */
  ghost predicate Below(g: Graph, t: nat, i: nat, f: nat)
    requires t in g.kind && t in g.at && f in g.kind && f in g.at
  {
    match g.kind[t]
    case Dir => g.kind[f].Tab? && g.at[f] == i
    case OldDir => g.kind[f].Tab?
    case Tab => g.kind[f].Page? && g.at[f] == g.at[t] * WORDS_PER_FRAME + i
    case OldTab => g.kind[f].Page?
    case Page => false
  }

  ghost predicate RefOk(g: Graph, r: Ref)
    requires r in g.own
  {
    var f := g.own[r];
    && f in g.kind && f in g.at && !g.kind[f].OldTab?
    && match r
       case Root(_) => g.kind[f].Dir? || g.kind[f].OldDir?
       case Slot(t, i) => i < WORDS_PER_FRAME && t in g.kind && t in g.at && Below(g, t, i, f)
       case Hand(h) => h == f && !g.kind[f].OldDir?
       case Leaked(h) => h == f && g.kind[f].Page?
  }

  ghost predicate DirEntryOk(g: Graph, k: Kernel, d: nat, i: nat) {
    var w := Ent(g.mem, d, i);
    if Names(w) then
      && Slot(d, i) in g.own && g.own[Slot(d, i)] == w.frame
      && w.us && (w.g <==> KDir(k, i)) && (w.g ==> w.rw)
      && (if w.rw then Sole(g.own, w.frame, Slot(d, i)) else NothingWritable(g.mem, w.frame))
    else
      && Slot(d, i) !in g.own
      && (w.p ==> KDir(k, i) && w == k.dir[i])
  }

  ghost predicate TabEntryOk(g: Graph, k: Kernel, t: nat, j: nat)
    requires t in g.at
  {
    var w := Ent(g.mem, t, j);
    if Names(w) then
      && Slot(t, j) in g.own && g.own[Slot(t, j)] == w.frame
      && w.us && !w.g && !KMaps(k, g.at[t], j)
      && (w.rw ==> Sole(g.own, w.frame, Slot(t, j)))
    else
      && Slot(t, j) !in g.own
      && (w.p ==> KMaps(k, g.at[t], j) && w == k.tabs[g.at[t]][j])
  }

  ghost predicate EntryOk(g: Graph, k: Kernel, t: nat, i: nat)
    requires t in g.kind && t in g.at
  {
    match g.kind[t]
    case Dir => DirEntryOk(g, k, t, i)
    case Tab => TabEntryOk(g, k, t, i)
    case Page => true
    case _ => Slot(t, i) in g.own ==> Names(Ent(g.mem, t, i)) && g.own[Slot(t, i)] == Ent(g.mem, t, i).frame
  }

  /** A directory or table that a process can reach holds every kernel entry of its index. */
  ghost predicate LinkOk(g: Graph, k: Kernel, r: Ref)
    requires r in g.own
  {
    match r
    case Root(_) =>
      g.own[r] in g.kind && g.kind[g.own[r]].Dir? ==>
        forall i :: 0 <= i < WORDS_PER_FRAME && KDir(k, i) ==> Ent(g.mem, g.own[r], i).p
    case Slot(t, i) =>
      t in g.kind && g.kind[t].Dir? ==> HasKernelEntries(g.mem, k, g.own[r], i)
    case _ => true
  }

  ghost predicate Wf(g: Graph, k: Kernel) {
    && KernelOk(k)
    && (forall f :: f in g.kind <==> Tracked(g.client, f))
    && (forall f :: f in g.kind ==> FrameOk(g, f))
    && (forall r :: r in g.own ==> RefOk(g, r))
    && (forall t, i :: t in g.kind && 0 <= i < WORDS_PER_FRAME ==> EntryOk(g, k, t, i))
    && (forall r :: r in g.own ==> LinkOk(g, k, r))
  }

  // ---------- sets of references ----------

  lemma RefsAdd(own: map<Ref, nat>, r: Ref, f: nat)
    requires r !in own
    ensures forall h :: h != f ==> RefsTo(own[r := f], h) == RefsTo(own, h)
    ensures RefsTo(own[r := f], f) == RefsTo(own, f) + {r}
    ensures |RefsTo(own[r := f], f)| == |RefsTo(own, f)| + 1
  {
    assert RefsTo(own[r := f], f) == RefsTo(own, f) + {r};
  }

  lemma RefsDrop(own: map<Ref, nat>, r: Ref)
    requires r in own
    ensures forall h :: h != own[r] ==> RefsTo(own - {r}, h) == RefsTo(own, h)
    ensures RefsTo(own - {r}, own[r]) == RefsTo(own, own[r]) - {r}
    ensures |RefsTo(own, own[r])| == |RefsTo(own - {r}, own[r])| + 1
  {
    assert RefsTo(own, own[r]) == RefsTo(own - {r}, own[r]) + {r};
  }

  // ---------- what an operation leaves alone ----------

  /** g' treats table t as g did. */
  ghost predicate SameTable(g: Graph, g': Graph, t: nat) {
    && t in g.kind && t in g.at && t in g'.kind && t in g'.at
    && g'.kind[t] == g.kind[t] && g'.at[t] == g.at[t]
  }

  ghost predicate SameSlot(g: Graph, g': Graph, t: nat, i: nat) {
    && Ent(g'.mem, t, i) == Ent(g.mem, t, i)
    && (Slot(t, i) in g.own <==> Slot(t, i) in g'.own)
    && (Slot(t, i) in g.own ==> g'.own[Slot(t, i)] == g.own[Slot(t, i)])
  }

  ghost predicate NoNewRefs(g: Graph, g': Graph, f: nat) {
    forall q :: q in g'.own && g'.own[q] == f ==> q in g.own && g.own[q] == f
  }

  lemma EntryKept(g: Graph, g': Graph, k: Kernel, t: nat, i: nat)
    requires SameTable(g, g', t) && SameSlot(g, g', t, i)
    requires EntryOk(g, k, t, i)
    requires var w := Ent(g.mem, t, i);
             && ((g.kind[t].Dir? || g.kind[t].Tab?) && Names(w) && w.rw ==> NoNewRefs(g, g', w.frame))
             && (g.kind[t].Dir? && Names(w) && !w.rw && NothingWritable(g.mem, w.frame) ==>
                 NothingWritable(g'.mem, w.frame))
    ensures EntryOk(g', k, t, i)
  {
    hide NothingWritable, KernelOk;
  }

  lemma ContentKept(mem: Memory, mem': Memory, t: nat)
    requires t in mem && t in mem' && mem'[t] == mem[t]
    ensures NothingWritable(mem, t) == NothingWritable(mem', t)
    ensures forall i :: Ent(mem', t, i) == Ent(mem, t, i)
  {
    assert forall i :: Ent(mem', t, i) == Ent(mem, t, i);
  }

  lemma FrameKept(g: Graph, g': Graph, f: nat)
    requires SameTable(g, g', f) && FrameOk(g, f)
    requires IsTable(g'.mem, f) && f in g'.client && g'.client[f] == g.client[f]
    requires RefsTo(g'.own, f) == RefsTo(g.own, f)
    ensures FrameOk(g', f)
  {
    if !g.kind[f].OldTab? {
      var r :| r in g.own && g.own[r] == f;
      assert r in RefsTo(g'.own, f);
    }
  }

  lemma RefKept(g: Graph, g': Graph, r: Ref)
    requires r in g.own && RefOk(g, r) && r in g'.own && g'.own[r] == g.own[r]
    requires SameTable(g, g', g.own[r])
    requires r.Slot? ==> SameTable(g, g', r.table)
    ensures RefOk(g', r)
  {
  }

  /** A kernel entry belongs at index i of table t. */
  ghost predicate KernelSlot(g: Graph, k: Kernel, t: nat, i: nat)
    requires t in g.kind && t in g.at
  {
    (g.kind[t].Dir? && KDir(k, i)) || (g.kind[t].Tab? && KMaps(k, g.at[t], i))
  }

  ghost predicate KernelEntriesStay(g: Graph, g': Graph, k: Kernel, t: nat)
    requires t in g.kind && t in g.at
  {
    forall i :: 0 <= i < WORDS_PER_FRAME && Ent(g.mem, t, i).p && KernelSlot(g, k, t, i) ==> Ent(g'.mem, t, i).p
  }

  lemma LinkKept(g: Graph, g': Graph, k: Kernel, r: Ref)
    requires r in g.own && RefOk(g, r) && LinkOk(g, k, r) && r in g'.own && g'.own[r] == g.own[r]
    requires r.Root? ==> SameTable(g, g', g.own[r])
    requires r.Slot? ==> SameTable(g, g', r.table)
    requires r.Root? || r.Slot? ==> KernelEntriesStay(g, g', k, g.own[r])
    ensures LinkOk(g', k, r)
  {
    hide KDir, KMaps;
    if r.Slot? && g.kind[r.table].Dir? {
      forall j | 0 <= j < WORDS_PER_FRAME && KMaps(k, r.index, j) ensures Ent(g'.mem, g.own[r], j).p {
        assert KernelSlot(g, k, g.own[r], j);
      }
    } else if r.Root? && g.kind[g.own[r]].Dir? {
      forall i | 0 <= i < WORDS_PER_FRAME && KDir(k, i) ensures Ent(g'.mem, g.own[r], i).p {
        assert KernelSlot(g, k, g.own[r], i);
      }
    }
  }

  lemma RefTarget(g: Graph, r: Ref)
    requires r in g.own && RefOk(g, r)
    ensures g.own[r] in g.kind && g.own[r] in g.at
    ensures r.Slot? && r.table in g.kind && g.kind[r.table].Dir? ==> g.kind[g.own[r]].Tab?
  {
  }

  /** Every reference leads from and to a known frame. */
  lemma Closed(g: Graph, k: Kernel)
    requires Wf(g, k)
    ensures forall f :: f in g.kind <==> Tracked(g.client, f)
    ensures forall f :: f in g.kind ==> f in g.at && f in g.client && IsTable(g.mem, f)
    ensures forall r :: r in g.own ==> g.own[r] in g.kind
    ensures forall r :: r in g.own && r.Slot? ==> r.index < WORDS_PER_FRAME && r.table in g.kind
    ensures forall r :: r in g.own && r.Hand? ==> g.own[r] == r.f
    ensures forall r :: r in g.own && r.Leaked? ==> g.own[r] == r.f
  {
    hide EntryOk, LinkOk, KernelOk;
    assert forall f :: f in g.kind ==> FrameOk(g, f);
    assert forall r :: r in g.own ==> RefOk(g, r);
  }

  /** The invariant looks at the content of directories and tables only. */
  lemma WfMem(g: Graph, k: Kernel, mem: Memory)
    requires Wf(g, k)
    requires forall f :: f in g.kind ==> IsTable(mem, f)
    requires forall f :: f in g.kind && !g.kind[f].Page? ==> f in mem && f in g.mem && mem[f] == g.mem[f]
    ensures Wf(g.(mem := mem), k)
  {
    hide EntryOk, LinkOk, KernelOk, FrameOk, RefOk, NothingWritable;
    var g' := g.(mem := mem);
    Closed(g, k);
    forall f | f in g.kind ensures FrameOk(g', f) {
      FrameKept(g, g', f);
    }
    forall r | r in g.own ensures RefOk(g', r) && LinkOk(g', k, r) {
      RefKept(g, g', r);
      if r.Root? || r.Slot? {
        MemEntriesStay(g, g', k, g.own[r]);
      }
      LinkKept(g, g', k, r);
    }
    forall t, i | t in g.kind && 0 <= i < WORDS_PER_FRAME ensures EntryOk(g', k, t, i) {
      EntryTarget(g, k, t, i);
      if g.kind[t].Page? {
        PageEntry(g', k, t, i);
      } else {
        ContentKept(g.mem, mem, t);
        if g.kind[t].Dir? && Names(Ent(g.mem, t, i)) {
          RefTarget(g, Slot(t, i));
          ContentKept(g.mem, mem, Ent(g.mem, t, i).frame);
        }
        EntryKept(g, g', k, t, i);
      }
    }
  }

  lemma PageEntry(g: Graph, k: Kernel, t: nat, i: nat)
    requires t in g.kind && g.kind[t].Page? && t in g.at
    ensures EntryOk(g, k, t, i)
  {
  }

  lemma MemEntriesStay(g: Graph, g': Graph, k: Kernel, t: nat)
    requires t in g.kind && t in g.at
    requires g.kind[t].Page? || (t in g.mem && t in g'.mem && g'.mem[t] == g.mem[t])
    ensures KernelEntriesStay(g, g', k, t)
  {
  }

  /** A private entry names a frame the graph knows. */
  lemma EntryTarget(g: Graph, k: Kernel, t: nat, i: nat)
    requires Wf(g, k) && t in g.kind && i < WORDS_PER_FRAME
    ensures t in g.at && EntryOk(g, k, t, i)
    ensures !g.kind[t].Page? && Slot(t, i) in g.own ==>
      Names(Ent(g.mem, t, i)) && g.own[Slot(t, i)] == Ent(g.mem, t, i).frame && Ent(g.mem, t, i).frame in g.kind
    ensures (g.kind[t].Dir? || g.kind[t].Tab?) && Names(Ent(g.mem, t, i)) ==> Slot(t, i) in g.own
  {
    hide LinkOk, KernelOk;
    assert FrameOk(g, t);
    assert Slot(t, i) in g.own ==> RefOk(g, Slot(t, i));
  }

  // ---------- one step ----------

  /** Outside the references R and the frames F the two graphs have the same references and counts;
      only frames in aged have another role. */
  ghost predicate Step(g: Graph, g': Graph, F: set<nat>, aged: set<nat>, R: set<Ref>) {
    && (forall f :: f in g'.kind <==> Tracked(g'.client, f))
    && (forall f :: f in g'.kind ==> f in g.kind && f in g'.at && IsTable(g'.mem, f))
    && (forall f :: f in g'.kind && f !in aged ==> SameTable(g, g', f))
    && (forall f :: f in g'.kind && f !in F ==>
        SameTable(g, g', f) && f in g.client && g'.client[f] == g.client[f] && RefsTo(g'.own, f) == RefsTo(g.own, f))
    && (forall r :: r in g'.own && r !in R ==> KeepsRef(g, g', r))
  }

  ghost predicate KeepsRef(g: Graph, g': Graph, r: Ref)
    requires r in g'.own
  {
    && r in g.own && g'.own[r] == g.own[r]
    && SameTable(g, g', g.own[r])
    && (r.Slot? ==> SameTable(g, g', r.table))
  }

  /** Only entry i0 of table t0 is written, if any; references from other entries stay. */
  ghost predicate OneEntry(g: Graph, g': Graph, t0: nat, i0: nat, aged: set<nat>) {
    && (forall t, i :: t in g'.kind && (t != t0 || i != i0) ==> Ent(g'.mem, t, i) == Ent(g.mem, t, i))
    && (forall t, i :: t in g'.kind && t !in aged && 0 <= i < WORDS_PER_FRAME && (t != t0 || i != i0) ==>
        SameSlot(g, g', t, i))
  }

  ghost predicate LiveTable(g: Graph, t: nat) {
    t in g.kind && (g.kind[t].Dir? || g.kind[t].Tab?)
  }

  /** Frames named by a writable entry elsewhere gain no reference. */
  ghost predicate WritableStaySole(g: Graph, g': Graph, t0: nat, i0: nat) {
    forall t, i ::
      LiveTable(g, t) && t in g'.kind && 0 <= i < WORDS_PER_FRAME && (t != t0 || i != i0) &&
      Names(Ent(g.mem, t, i)) && Ent(g.mem, t, i).rw ==>
        NoNewRefs(g, g', Ent(g.mem, t, i).frame)
  }

  /** No read-only directory entry leads to t. */
  ghost predicate WritableTable(g: Graph, t: nat) {
    forall d, i ::
      d in g.kind && g.kind[d].Dir? && 0 <= i < WORDS_PER_FRAME &&
      Names(Ent(g.mem, d, i)) && Ent(g.mem, d, i).frame == t ==>
        Ent(g.mem, d, i).rw
  }

  /** What the written entry must not do to the rest. */
  ghost predicate GoodWrite(g: Graph, g': Graph, k: Kernel, t0: nat, i0: nat) {
    t0 in g.kind && t0 in g.at ==>
      var w, w' := Ent(g.mem, t0, i0), Ent(g'.mem, t0, i0);
      && (w.p && KernelSlot(g, k, t0, i0) ==> w'.p)
      && (g.kind[t0].Tab? && Names(w') && w'.rw && !(Names(w) && w.rw) ==> WritableTable(g, t0))
  }

  lemma StepOk(g: Graph, g': Graph, k: Kernel, t0: nat, i0: nat, F: set<nat>, aged: set<nat>, R: set<Ref>)
    requires Wf(g, k)
    requires Step(g, g', F, aged, R) && OneEntry(g, g', t0, i0, aged)
    requires WritableStaySole(g, g', t0, i0) && GoodWrite(g, g', k, t0, i0)
    requires forall f :: f in g'.kind && f in F ==> FrameOk(g', f)
    requires forall r :: r in g'.own && r in R ==> RefOk(g', r) && LinkOk(g', k, r)
    requires forall t, i :: t in g'.kind && t in aged && 0 <= i < WORDS_PER_FRAME ==> EntryOk(g', k, t, i)
    requires t0 in g'.kind && i0 < WORDS_PER_FRAME ==> EntryOk(g', k, t0, i0)
    ensures Wf(g', k)
  {
    hide EntryOk, LinkOk, KernelOk, FrameOk, RefOk, NothingWritable, KDir, KMaps, GoodWrite, WritableStaySole,
        OneEntry, Names;
    Closed(g, k);
    forall f | f in g'.kind ensures FrameOk(g', f) {
      if f !in F {
        FrameKept(g, g', f);
      }
    }
    forall r | r in g'.own ensures RefOk(g', r) && LinkOk(g', k, r) {
      if r !in R {
        RefKept(g, g', r);
        StepEntriesStay(g, g', k, t0, i0, aged, g.own[r]);
        LinkKept(g, g', k, r);
      }
    }
    forall t, i | t in g'.kind && 0 <= i < WORDS_PER_FRAME ensures EntryOk(g', k, t, i) {
      if t !in aged && (t != t0 || i != i0) {
        EntryTarget(g, k, t, i);
        if g.kind[t].Dir? && Names(Ent(g.mem, t, i)) {
          RefTarget(g, Slot(t, i));
          OtherSlot(g, g', t0, i0, aged, t, i);
          if Slot(t, i) in R {
            RefTarget(g', Slot(t, i));
          } else {
            assert KeepsRef(g, g', Slot(t, i));
          }
        }
        StepEntry(g, g', k, t0, i0, F, aged, R, t, i);
      }
    }
  }

  lemma OtherSlot(g: Graph, g': Graph, t0: nat, i0: nat, aged: set<nat>, t: nat, i: nat)
    requires OneEntry(g, g', t0, i0, aged)
    requires t in g'.kind && t !in aged && i < WORDS_PER_FRAME && (t != t0 || i != i0)
    ensures SameSlot(g, g', t, i)
  {
  }

  lemma StepEntriesStay(g: Graph, g': Graph, k: Kernel, t0: nat, i0: nat, aged: set<nat>, t: nat)
    requires t in g.kind && t in g.at && t in g'.kind
    requires OneEntry(g, g', t0, i0, aged) && GoodWrite(g, g', k, t0, i0)
    ensures KernelEntriesStay(g, g', k, t)
  {
  }

  lemma StepEntry(g: Graph, g': Graph, k: Kernel, t0: nat, i0: nat, F: set<nat>, aged: set<nat>, R: set<Ref>,
                  t: nat, i: nat)
    requires t in g.kind && t in g.at && t in g'.kind && t !in aged && i < WORDS_PER_FRAME && (t != t0 || i != i0)
    requires Step(g, g', F, aged, R) && OneEntry(g, g', t0, i0, aged)
    requires WritableStaySole(g, g', t0, i0) && GoodWrite(g, g', k, t0, i0)
    requires EntryOk(g, k, t, i)
    requires g.kind[t].Dir? && Names(Ent(g.mem, t, i)) ==>
      var f := Ent(g.mem, t, i).frame; f in g.kind && f in g.at && g.kind[f].Tab? && f in g'.kind
    ensures EntryOk(g', k, t, i)
  {
    hide EntryOk;
    assert SameSlot(g, g', t, i);
    var w := Ent(g.mem, t, i);
    if g.kind[t].Dir? && Names(w) && !w.rw && NothingWritable(g.mem, w.frame) {
      if w.frame == t0 {
        assert !WritableTable(g, t0);
      }
      forall j | 0 <= j < WORDS_PER_FRAME && Names(Ent(g'.mem, w.frame, j))
        ensures !Ent(g'.mem, w.frame, j).rw
      {
        assert w.frame != t0 || j != i0 ==> Ent(g'.mem, w.frame, j) == Ent(g.mem, w.frame, j);
      }
    }
    EntryKept(g, g', k, t, i);
  }

  // ---------- a fresh frame ----------

  /** A zeroed, freshly counted frame held in a local variable. */
  ghost function NewFrame(g: Graph, f: nat, kd: Kind, a: nat): Graph {
    Graph(g.mem[f := ZeroFrame()], g.client[f := Counted(1)], g.own[Hand(f) := f], g.kind[f := kd], g.at[f := a])
  }

  lemma NewFrameOk(g: Graph, k: Kernel, f: nat, kd: Kind, a: nat)
    requires Wf(g, k) && f !in g.client && (kd.Dir? || kd.Tab? || kd.Page?) && (kd.Page? ==> a >= USER_PAGES)
    ensures Hand(f) !in g.own
    ensures Wf(NewFrame(g, f, kd, a), k)
  {
    hide EntryOk, LinkOk, KernelOk, FrameOk, RefOk, NothingWritable;
    var g' := NewFrame(g, f, kd, a);
    Closed(g, k);
    RefsAdd(g.own, Hand(f), f);
    assert RefsTo(g.own, f) == {};
    forall h | h in g'.kind ensures FrameOk(g', h) {
      if h != f {
        FrameKept(g, g', h);
      } else {
        NewFrameSelf(g', f);
      }
    }
    forall r | r in g'.own ensures RefOk(g', r) && LinkOk(g', k, r) {
      if r != Hand(f) {
        RefKept(g, g', r);
        ContentKept(g.mem, g'.mem, g.own[r]);
        LinkKept(g, g', k, r);
      } else {
        NewFrameSelf(g', f);
        HandLinked(g', k, f);
      }
    }
    forall t, i | t in g'.kind && 0 <= i < WORDS_PER_FRAME ensures EntryOk(g', k, t, i) {
      if t != f {
        EntryTarget(g, k, t, i);
        if Ent(g.mem, t, i).frame in g.kind {
          ContentKept(g.mem, g'.mem, Ent(g.mem, t, i).frame);
        }
        EntryKept(g, g', k, t, i);
      } else {
        EmptyEntry(g', k, t, i);
      }
    }
  }

  lemma NewFrameSelf(g: Graph, f: nat)
    requires f in g.kind && (g.kind[f].Dir? || g.kind[f].Tab? || g.kind[f].Page?)
    requires f in g.at && IsTable(g.mem, f) && f in g.client && g.client[f] == Counted(1)
    requires g.kind[f].Page? ==> g.at[f] >= USER_PAGES
    requires Hand(f) in g.own && g.own[Hand(f)] == f && |RefsTo(g.own, f)| == 1
    ensures FrameOk(g, f) && RefOk(g, Hand(f))
  {
  }

  lemma HandLinked(g: Graph, k: Kernel, f: nat)
    requires Hand(f) in g.own
    ensures LinkOk(g, k, Hand(f))
  {
  }

  lemma EmptyEntry(g: Graph, k: Kernel, t: nat, i: nat)
    requires t in g.kind && t in g.at && !Ent(g.mem, t, i).p && Slot(t, i) !in g.own
    ensures EntryOk(g, k, t, i)
  {
  }

  // ---------- copying an entry ----------

  /** A read-only private entry is copied: the frame gains a reference. */
  ghost function Share(g: Graph, t: nat, i: nat, e: Word): Graph
    requires IsTable(g.mem, t) && i < WORDS_PER_FRAME
  {
    Graph(SetEnt(g.mem, t, i, e), g.client[e.frame := Counted(CountOf(g.client, e.frame) + 1)],
          g.own[Slot(t, i) := e.frame], g.kind, g.at)
  }

  ghost predicate Shareable(g: Graph, s: nat, t: nat, i: nat) {
    && LiveTable(g, s) && LiveTable(g, t) && g.kind[s] == g.kind[t] && i < WORDS_PER_FRAME
    && s in g.at && t in g.at && (g.kind[s].Tab? ==> g.at[s] == g.at[t])
    && Names(Ent(g.mem, s, i)) && !Ent(g.mem, s, i).rw && !Ent(g.mem, t, i).p
  }

  lemma ShareOk(g: Graph, k: Kernel, s: nat, t: nat, i: nat)
    requires Wf(g, k) && Shareable(g, s, t, i)
    ensures IsTable(g.mem, t)
    ensures var e := Ent(g.mem, s, i);
            e.frame in g.client && g.client[e.frame].Counted? && Wf(Share(g, t, i, e), k)
  {
    hide EntryOk, LinkOk, FrameOk, RefOk, Step, OneEntry, WritableStaySole, GoodWrite;
    var e := Ent(g.mem, s, i);
    ShareSource(g, k, s, t, i);
    RefsAdd(g.own, Slot(t, i), e.frame);
    ShareSole(g, k, s, t, i);
    ShareStep(g, k, s, t, i);
    StepOk(g, Share(g, t, i, e), k, t, i, {e.frame}, {}, {Slot(t, i)});
  }

  lemma ShareSole(g: Graph, k: Kernel, s: nat, t: nat, i: nat)
    requires Wf(g, k) && Shareable(g, s, t, i) && IsTable(g.mem, t)
    ensures WritableStaySole(g, Share(g, t, i, Ent(g.mem, s, i)), t, i)
  {
    hide Wf;
    var e := Ent(g.mem, s, i);
    var g' := Share(g, t, i, e);
    NamedSlot(g, k, s, i);
    forall u, j | LiveTable(g, u) && u in g'.kind && 0 <= j < WORDS_PER_FRAME && (u != t || j != i) &&
      Names(Ent(g.mem, u, j)) && Ent(g.mem, u, j).rw
      ensures NoNewRefs(g, g', Ent(g.mem, u, j).frame)
    {
      SoleEntry(g, k, u, j);
    }
  }

  lemma ShareStep(g: Graph, k: Kernel, s: nat, t: nat, i: nat)
    requires Wf(g, k) && Shareable(g, s, t, i) && IsTable(g.mem, t)
    requires Slot(t, i) !in g.own
    ensures var e := Ent(g.mem, s, i);
            var g' := Share(g, t, i, e);
            Step(g, g', {e.frame}, {}, {Slot(t, i)}) && OneEntry(g, g', t, i, {}) && GoodWrite(g, g', k, t, i)
  {
    hide Wf, IsTable, Ent, SetEnt, RefsTo, FrameOk, OneEntry, GoodWrite;
    var e := Ent(g.mem, s, i);
    Closed(g, k);
    NamedSlot(g, k, s, i);
    NamedFrame(g, k, Slot(s, i));
    RefsAdd(g.own, Slot(t, i), e.frame);
    SetEntOne(g.mem, t, i, e);
    WriteOne(g, Share(g, t, i, e), k, t, i, e, {});
  }

  /** Writing a present entry touches nothing else. */
  lemma WriteOne(g: Graph, g': Graph, k: Kernel, t: nat, i: nat, e: Word, aged: set<nat>)
    requires IsTable(g.mem, t) && i < WORDS_PER_FRAME && g'.mem == SetEnt(g.mem, t, i, e)
    requires forall r: Ref :: r.Slot? && (r.table != t || r.index != i) && r.table in g'.kind && r.table !in aged ==>
      (r in g.own <==> r in g'.own) && (r in g.own ==> g'.own[r] == g.own[r])
    requires e.p || !Ent(g.mem, t, i).p || (t in g.kind && t in g.at && !KernelSlot(g, k, t, i))
    requires Names(e) && e.rw && LiveTable(g, t) && g.kind[t].Tab? ==>
      WritableTable(g, t) || (Names(Ent(g.mem, t, i)) && Ent(g.mem, t, i).rw)
    ensures OneEntry(g, g', t, i, aged) && GoodWrite(g, g', k, t, i)
  {
    hide KernelSlot, WritableTable, IsTable, Ent, SetEnt;
    SetEntOne(g.mem, t, i, e);
  }

  lemma NamedSlot(g: Graph, k: Kernel, t: nat, i: nat)
    requires Wf(g, k) && LiveTable(g, t) && i < WORDS_PER_FRAME
    ensures Slot(t, i) in g.own <==> Names(Ent(g.mem, t, i))
    ensures Slot(t, i) in g.own ==> g.own[Slot(t, i)] == Ent(g.mem, t, i).frame
  {
    hide LinkOk, RefOk, KernelOk;
    assert FrameOk(g, t);
    assert EntryOk(g, k, t, i);
  }

  lemma NamedFrame(g: Graph, k: Kernel, r: Ref)
    requires Wf(g, k) && r in g.own
    ensures var f := g.own[r];
            f in g.kind && f in g.client && g.client[f] == Counted(|RefsTo(g.own, f)|) && FrameOk(g, f)
  {
    hide LinkOk, EntryOk, KernelOk;
    assert RefOk(g, r);
    assert FrameOk(g, g.own[r]);
  }

  /** The source of a shared entry supplies every property the copy needs. */
  lemma ShareSource(g: Graph, k: Kernel, s: nat, t: nat, i: nat)
    requires Wf(g, k) && Shareable(g, s, t, i)
    ensures IsTable(g.mem, t)
    ensures var e := Ent(g.mem, s, i);
            var g' := Share(g, t, i, e);
            && e.frame in g.client && g.client[e.frame].Counted? && e.frame in g.kind
            && (|RefsTo(g'.own, e.frame)| == |RefsTo(g.own, e.frame)| + 1 ==> FrameOk(g', e.frame))
            && Slot(t, i) !in g.own && RefOk(g', Slot(t, i)) && LinkOk(g', k, Slot(t, i)) && EntryOk(g', k, t, i)
  {
    var e := Ent(g.mem, s, i);
    var g' := Share(g, t, i, e);
    assert FrameOk(g, t);
    assert EntryOk(g, k, s, i) && EntryOk(g, k, t, i);
    assert RefOk(g, Slot(s, i)) && LinkOk(g, k, Slot(s, i));
    assert FrameOk(g, e.frame);
    assert e.frame != t;
    assert Slot(t, i) in g'.own;
    ContentKept(g.mem, g'.mem, e.frame);
  }

  /** A writable entry is the only reference to its frame. */
  lemma SoleEntry(g: Graph, k: Kernel, t: nat, i: nat)
    requires Wf(g, k) && LiveTable(g, t) && i < WORDS_PER_FRAME
    requires Names(Ent(g.mem, t, i)) && Ent(g.mem, t, i).rw
    ensures Sole(g.own, Ent(g.mem, t, i).frame, Slot(t, i))
  {
    hide LinkOk, RefOk, KernelOk;
    assert FrameOk(g, t);
    assert EntryOk(g, k, t, i);
  }

  // ---------- moving a reference into an entry ----------

  lemma RefsMove(own: map<Ref, nat>, p: Ref, q: Ref)
    requires p in own && q !in own
    ensures var f, own' := own[p], (own - {p})[q := own[p]];
            && (forall h :: h != f ==> RefsTo(own', h) == RefsTo(own, h))
            && RefsTo(own', f) == RefsTo(own, f) - {p} + {q}
            && |RefsTo(own', f)| == |RefsTo(own, f)|
  {
    RefsDrop(own, p);
    RefsAdd(own - {p}, q, own[p]);
  }

  /** The frame held in a local variable is mapped: its one reference moves to the entry. */
  ghost function Put(g: Graph, t: nat, i: nat, e: Word): Graph
    requires IsTable(g.mem, t) && i < WORDS_PER_FRAME
  {
    g.(mem := SetEnt(g.mem, t, i, e), own := (g.own - {Hand(e.frame)})[Slot(t, i) := e.frame])
  }

  ghost predicate Putable(g: Graph, k: Kernel, t: nat, i: nat, e: Word) {
    var f := e.frame;
    && LiveTable(g, t) && i < WORDS_PER_FRAME && t in g.at && f in g.at && f in g.kind
    && Hand(f) in g.own && g.own[Hand(f)] == f
    && Names(e) && e.us && !Names(Ent(g.mem, t, i))
    && (e.rw ==> Sole(g.own, f, Hand(f)))
    && (if g.kind[t].Dir? then
          && g.kind[f].Tab? && g.at[f] == i && (e.g <==> KDir(k, i)) && (e.g ==> e.rw)
          && HasKernelEntries(g.mem, k, f, i) && (!e.rw ==> NothingWritable(g.mem, f))
        else
          && g.kind[f].Page? && g.at[f] == g.at[t] * WORDS_PER_FRAME + i && !e.g && !KMaps(k, g.at[t], i)
          && (e.rw ==> WritableTable(g, t)))
  }

  lemma PutOk(g: Graph, k: Kernel, t: nat, i: nat, e: Word)
    requires Wf(g, k) && Putable(g, k, t, i, e)
    ensures IsTable(g.mem, t) && Wf(Put(g, t, i, e), k)
  {
    hide EntryOk, LinkOk, FrameOk, RefOk, Step, OneEntry, WritableStaySole, GoodWrite;
    NamedSlot(g, k, t, i);
    Closed(g, k);
    RefsMove(g.own, Hand(e.frame), Slot(t, i));
    PutLocal(g, k, t, i, e);
    PutStep(g, k, t, i, e);
    PutSole(g, k, t, i, e);
    StepOk(g, Put(g, t, i, e), k, t, i, {e.frame}, {}, {Slot(t, i)});
  }

  lemma PutLocal(g: Graph, k: Kernel, t: nat, i: nat, e: Word)
    requires Wf(g, k) && Putable(g, k, t, i, e) && IsTable(g.mem, t)
    ensures var g' := Put(g, t, i, e);
            && (|RefsTo(g'.own, e.frame)| == |RefsTo(g.own, e.frame)| ==> FrameOk(g', e.frame))
            && RefOk(g', Slot(t, i)) && LinkOk(g', k, Slot(t, i)) && EntryOk(g', k, t, i)
  {
    var g' := Put(g, t, i, e);
    SetEntOne(g.mem, t, i, e);
    assert EntryOk(g, k, t, i);
    assert RefOk(g, Hand(e.frame));
    assert FrameOk(g, e.frame);
    assert Slot(t, i) in g'.own;
    ContentKept(g.mem, g'.mem, e.frame);
  }

  lemma PutStep(g: Graph, k: Kernel, t: nat, i: nat, e: Word)
    requires Wf(g, k) && Putable(g, k, t, i, e) && IsTable(g.mem, t)
    ensures var g' := Put(g, t, i, e);
            Step(g, g', {e.frame}, {}, {Slot(t, i)}) && OneEntry(g, g', t, i, {}) && GoodWrite(g, g', k, t, i)
  {
    hide Wf, IsTable, Ent, SetEnt, Step, FrameOk, OneEntry, GoodWrite;
    PutMoves(g, k, t, i, e);
    NamedSlot(g, k, t, i);
    SetEntOne(g.mem, t, i, e);
    WriteOne(g, Put(g, t, i, e), k, t, i, e, {});
  }

  lemma PutMoves(g: Graph, k: Kernel, t: nat, i: nat, e: Word)
    requires Wf(g, k) && Putable(g, k, t, i, e) && IsTable(g.mem, t)
    ensures Step(g, Put(g, t, i, e), {e.frame}, {}, {Slot(t, i)})
  {
    hide Wf, IsTable, Ent, SetEnt, RefsTo, FrameOk;
    Closed(g, k);
    NamedSlot(g, k, t, i);
    NamedFrame(g, k, Hand(e.frame));
    RefsMove(g.own, Hand(e.frame), Slot(t, i));
    SetEntOne(g.mem, t, i, e);
  }

  lemma PutSole(g: Graph, k: Kernel, t: nat, i: nat, e: Word)
    requires Wf(g, k) && Putable(g, k, t, i, e) && IsTable(g.mem, t)
    ensures WritableStaySole(g, Put(g, t, i, e), t, i)
  {
    hide Wf, IsTable, SetEnt;
    var g' := Put(g, t, i, e);
    forall u, j | LiveTable(g, u) && u in g'.kind && 0 <= j < WORDS_PER_FRAME && (u != t || j != i) &&
      Names(Ent(g.mem, u, j)) && Ent(g.mem, u, j).rw
      ensures NoNewRefs(g, g', Ent(g.mem, u, j).frame)
    {
      SoleEntry(g, k, u, j);
    }
  }

  // ---------- taking a reference out of an entry ----------

  /** A private entry is cleared and its reference kept in a local variable. */
  ghost function Take(g: Graph, t: nat, i: nat): Graph
    requires IsTable(g.mem, t) && i < WORDS_PER_FRAME
  {
    var f := Ent(g.mem, t, i).frame;
    g.(mem := SetEnt(g.mem, t, i, ZERO_WORD), own := (g.own - {Slot(t, i)})[Hand(f) := f])
  }

  ghost predicate Takeable(g: Graph, k: Kernel, t: nat, i: nat) {
    && LiveTable(g, t) && i < WORDS_PER_FRAME && t in g.at
    && Names(Ent(g.mem, t, i)) && !KernelSlot(g, k, t, i)
    && Hand(Ent(g.mem, t, i).frame) !in g.own
  }

  lemma TakeOk(g: Graph, k: Kernel, t: nat, i: nat)
    requires Wf(g, k) && Takeable(g, k, t, i)
    ensures IsTable(g.mem, t) && Wf(Take(g, t, i), k)
  {
    hide EntryOk, LinkOk, FrameOk, RefOk, Step, OneEntry, WritableStaySole, GoodWrite;
    var f := Ent(g.mem, t, i).frame;
    NamedSlot(g, k, t, i);
    Closed(g, k);
    RefsMove(g.own, Slot(t, i), Hand(f));
    TakeLocal(g, k, t, i);
    TakeStep(g, k, t, i);
    TakeSole(g, k, t, i);
    StepOk(g, Take(g, t, i), k, t, i, {f}, {}, {Hand(f)});
  }

  lemma TakeLocal(g: Graph, k: Kernel, t: nat, i: nat)
    requires Wf(g, k) && Takeable(g, k, t, i) && IsTable(g.mem, t)
    ensures var f, g' := Ent(g.mem, t, i).frame, Take(g, t, i);
            && (|RefsTo(g'.own, f)| == |RefsTo(g.own, f)| ==> f in g.kind && FrameOk(g', f))
            && RefOk(g', Hand(f)) && LinkOk(g', k, Hand(f)) && EntryOk(g', k, t, i)
  {
    var f, g' := Ent(g.mem, t, i).frame, Take(g, t, i);
    SetEntOne(g.mem, t, i, ZERO_WORD);
    assert EntryOk(g, k, t, i);
    assert RefOk(g, Slot(t, i));
    assert FrameOk(g, f);
    assert Hand(f) in g'.own;
  }

  lemma TakeStep(g: Graph, k: Kernel, t: nat, i: nat)
    requires Wf(g, k) && Takeable(g, k, t, i) && IsTable(g.mem, t)
    ensures var f, g' := Ent(g.mem, t, i).frame, Take(g, t, i);
            Step(g, g', {f}, {}, {Hand(f)}) && OneEntry(g, g', t, i, {}) && GoodWrite(g, g', k, t, i)
  {
    hide Wf, IsTable, Ent, SetEnt, RefsTo, FrameOk, OneEntry, GoodWrite, KernelSlot;
    var f := Ent(g.mem, t, i).frame;
    Closed(g, k);
    NamedSlot(g, k, t, i);
    NamedFrame(g, k, Slot(t, i));
    RefsMove(g.own, Slot(t, i), Hand(f));
    SetEntOne(g.mem, t, i, ZERO_WORD);
    WriteOne(g, Take(g, t, i), k, t, i, ZERO_WORD, {});
  }

  lemma TakeSole(g: Graph, k: Kernel, t: nat, i: nat)
    requires Wf(g, k) && Takeable(g, k, t, i) && IsTable(g.mem, t)
    ensures WritableStaySole(g, Take(g, t, i), t, i)
  {
    hide Wf, IsTable, SetEnt, KernelSlot;
    var g' := Take(g, t, i);
    NamedSlot(g, k, t, i);
    forall u, j | LiveTable(g, u) && u in g'.kind && 0 <= j < WORDS_PER_FRAME && (u != t || j != i) &&
      Names(Ent(g.mem, u, j)) && Ent(g.mem, u, j).rw
      ensures NoNewRefs(g, g', Ent(g.mem, u, j).frame)
    {
      SoleEntry(g, k, u, j);
    }
  }

  // ---------- rewriting an entry without touching references ----------

  ghost function Rewrite(g: Graph, t: nat, i: nat, w: Word): Graph
    requires IsTable(g.mem, t) && i < WORDS_PER_FRAME
  {
    g.(mem := SetEnt(g.mem, t, i, w))
  }

  lemma RewriteOk(g: Graph, k: Kernel, t: nat, i: nat, w: Word)
    requires Wf(g, k) && LiveTable(g, t) && t in g.at && i < WORDS_PER_FRAME && IsTable(g.mem, t)
    requires EntryOk(Rewrite(g, t, i, w), k, t, i)
    requires w.p || !Ent(g.mem, t, i).p
    requires Names(w) && w.rw ==> Names(Ent(g.mem, t, i)) && Ent(g.mem, t, i).rw
    ensures Wf(Rewrite(g, t, i, w), k)
  {
    hide EntryOk, LinkOk, KernelOk, FrameOk, RefOk, OneEntry, GoodWrite, IsTable, Ent, SetEnt, NothingWritable;
    var g' := Rewrite(g, t, i, w);
    Closed(g, k);
    SetEntOne(g.mem, t, i, w);
    WriteOne(g, g', k, t, i, w, {});
    StepOk(g, g', k, t, i, {}, {}, {});
  }

  /** Copying a kernel entry. */
  lemma CopyGlobalOk(g: Graph, k: Kernel, t: nat, i: nat)
    requires Wf(g, k) && LiveTable(g, t) && t in g.at && i < WORDS_PER_FRAME
    requires KernelSlot(g, k, t, i) && !Ent(g.mem, t, i).p
    ensures IsTable(g.mem, t)
    ensures Wf(Rewrite(g, t, i, if g.kind[t].Dir? then k.dir[i] else k.tabs[g.at[t]][i]), k)
  {
    var w := if g.kind[t].Dir? then k.dir[i] else k.tabs[g.at[t]][i];
    assert FrameOk(g, t);
    KernelEntry(g, k, t, i);
    SetEntOne(g.mem, t, i, w);
    assert EntryOk(g, k, t, i);
    assert EntryOk(Rewrite(g, t, i, w), k, t, i);
    hide EntryOk, FrameOk, Wf;
    RewriteOk(g, k, t, i, w);
  }

  lemma KernelEntry(g: Graph, k: Kernel, t: nat, i: nat)
    requires KernelOk(k) && t in g.kind && t in g.at && KernelSlot(g, k, t, i)
    ensures i < WORDS_PER_FRAME
    ensures var w := if g.kind[t].Dir? then k.dir[i] else k.tabs[g.at[t]][i];
            w.p && w.g && w.rw && !w.ng && !w.us
  {
  }

  /** Write protection of a private entry; a directory entry needs its table protected first. */
  lemma ProtectOk(g: Graph, k: Kernel, t: nat, i: nat)
    requires Wf(g, k) && LiveTable(g, t) && i < WORDS_PER_FRAME && Names(Ent(g.mem, t, i))
    requires g.kind[t].Dir? ==> !Ent(g.mem, t, i).g && NothingWritable(g.mem, Ent(g.mem, t, i).frame)
    ensures IsTable(g.mem, t)
    ensures Wf(Rewrite(g, t, i, Ent(g.mem, t, i).(rw := false)), k)
  {
    hide Wf, EntryOk;
    EntryTarget(g, k, t, i);
    Closed(g, k);
    ProtectEntry(g, k, t, i);
    RewriteOk(g, k, t, i, Ent(g.mem, t, i).(rw := false));
  }

  lemma ProtectEntry(g: Graph, k: Kernel, t: nat, i: nat)
    requires Wf(g, k) && LiveTable(g, t) && t in g.at && i < WORDS_PER_FRAME && Names(Ent(g.mem, t, i))
    requires IsTable(g.mem, t)
    requires g.kind[t].Dir? ==> !Ent(g.mem, t, i).g && NothingWritable(g.mem, Ent(g.mem, t, i).frame)
    ensures EntryOk(Rewrite(g, t, i, Ent(g.mem, t, i).(rw := false)), k, t, i)
  {
    var w := Ent(g.mem, t, i).(rw := false);
    SetEntOne(g.mem, t, i, w);
    assert EntryOk(g, k, t, i);
    assert RefOk(g, Slot(t, i));
    if g.kind[t].Dir? {
      ContentKept(g.mem, SetEnt(g.mem, t, i, w), w.frame);
    }
  }

  // ---------- dropping references ----------

  /** Only references held in a local variable or by a dying table are given up. */
  ghost predicate Droppable(g: Graph, r: Ref) {
    && r in g.own
    && (r.Hand? || (r.Slot? && r.table in g.kind && (g.kind[r.table].OldDir? || g.kind[r.table].OldTab?)))
  }

  ghost function Forget(g: Graph, r: Ref): Graph
    requires r in g.own
  {
    var f := g.own[r];
    if CountOf(g.client, f) == 1 then
      g.(own := g.own - {r}, client := g.client - {f}, kind := g.kind - {f})
    else
      g.(own := g.own - {r}, client := g.client[f := Counted(Less(CountOf(g.client, f)))])
  }

  ghost function Less(n: nat): nat {
    if n == 0 then 0 else n - 1
  }

  /** decref of a frame that has other references, or of an unshared page. */
  lemma ForgetOk(g: Graph, k: Kernel, r: Ref)
    requires Wf(g, k) && Droppable(g, r)
    requires g.own[r] in g.kind && (g.kind[g.own[r]].Page? || CountOf(g.client, g.own[r]) > 1)
    ensures Wf(Forget(g, r), k)
  {
    hide EntryOk, LinkOk, KernelOk, FrameOk, RefOk, Step, OneEntry, WritableStaySole, GoodWrite;
    var f, g' := g.own[r], Forget(g, r);
    ForgetStep(g, k, r);
    ForgetEntry(g, k, r);
    WriteNone(g, g', k, r);
    StepOk(g, g', k, TableOfRef(r), IndexOfRef(r), {f}, {}, {});
  }

  ghost function TableOfRef(r: Ref): nat {
    if r.Slot? then r.table else 0
  }

  ghost function IndexOfRef(r: Ref): nat {
    if r.Slot? then r.index else WORDS_PER_FRAME
  }

  /** Dropping one reference writes nothing. */
  lemma WriteNone(g: Graph, g': Graph, k: Kernel, r: Ref)
    requires g'.mem == g.mem && g'.own == g.own - {r}
    requires forall t :: t in g'.kind ==> t in g.kind
    ensures OneEntry(g, g', TableOfRef(r), IndexOfRef(r), {})
    ensures WritableStaySole(g, g', TableOfRef(r), IndexOfRef(r))
    ensures GoodWrite(g, g', k, TableOfRef(r), IndexOfRef(r))
  {
    hide Ent, KernelSlot, WritableTable;
  }

  lemma ForgetStep(g: Graph, k: Kernel, r: Ref)
    requires Wf(g, k) && Droppable(g, r)
    requires g.own[r] in g.kind && (g.kind[g.own[r]].Page? || CountOf(g.client, g.own[r]) > 1)
    ensures var f, g' := g.own[r], Forget(g, r);
            && Step(g, g', {f}, {}, {})
            && (f in g'.kind ==> FrameOk(g', f))
  {
    hide Wf, Step, FrameOk;
    NamedFrame(g, k, r);
    RefsDrop(g.own, r);
    assert r in RefsTo(g.own, g.own[r]);
    if CountOf(g.client, g.own[r]) == 1 {
      ForgetLastStep(g, k, r);
    } else {
      ForgetOneStep(g, k, r);
    }
  }

  lemma ForgetOneStep(g: Graph, k: Kernel, r: Ref)
    requires Wf(g, k) && r in g.own && CountOf(g.client, g.own[r]) > 1
    ensures var f, g' := g.own[r], Forget(g, r);
            Step(g, g', {f}, {}, {}) && f in g'.kind && FrameOk(g', f)
  {
    hide Wf, IsTable, Ent, FrameOk, RefsTo;
    var f, g' := g.own[r], Forget(g, r);
    Closed(g, k);
    NamedFrame(g, k, r);
    RefsDrop(g.own, r);
    ForgetOneFrame(g, k, r);
  }

  lemma ForgetOneFrame(g: Graph, k: Kernel, r: Ref)
    requires Wf(g, k) && r in g.own && CountOf(g.client, g.own[r]) > 1
    ensures var f, g' := g.own[r], Forget(g, r);
            f in g'.kind && FrameOk(g', f)
  {
    hide Wf, IsTable, Ent;
    var f, g' := g.own[r], Forget(g, r);
    NamedFrame(g, k, r);
    RefsDrop(g.own, r);
    var q :| q in RefsTo(g'.own, f);
    assert q in g'.own && g'.own[q] == f;
  }

  lemma ForgetLastStep(g: Graph, k: Kernel, r: Ref)
    requires Wf(g, k) && r in g.own && CountOf(g.client, g.own[r]) == 1
    requires g.own[r] in g.kind && g.kind[g.own[r]].Page?
    ensures var f, g' := g.own[r], Forget(g, r);
            Step(g, g', {f}, {}, {}) && f !in g'.kind
  {
    hide Wf, IsTable, Ent, FrameOk, RefsTo;
    var f, g' := g.own[r], Forget(g, r);
    Closed(g, k);
    RefsDrop(g.own, r);
    NoRefsLeft(g, k, r);
    NoSlotsOf(g, k, f);
  }

  lemma NoSlotsOf(g: Graph, k: Kernel, f: nat)
    requires Wf(g, k) && f in g.kind && g.kind[f].Page?
    ensures forall q :: q in g.own && q.Slot? ==> q.table != f
  {
    hide EntryOk, LinkOk, KernelOk, FrameOk;
    forall q | q in g.own && q.Slot? ensures q.table != f {
      assert RefOk(g, q);
    }
  }

  lemma NoRefsLeft(g: Graph, k: Kernel, r: Ref)
    requires Wf(g, k) && r in g.own && CountOf(g.client, g.own[r]) == 1
    ensures forall q :: q in g.own && g.own[q] == g.own[r] ==> q == r
    ensures forall i :: g.own[r] in g.kind && g.kind[g.own[r]].Page? ==> Slot(g.own[r], i) !in g.own
  {
    hide EntryOk, LinkOk, KernelOk;
    NamedFrame(g, k, r);
    forall q | q in g.own && g.own[q] == g.own[r] ensures q == r {
      if q != r {
        SubsetCard({q, r}, RefsTo(g.own, g.own[r]));
      }
    }
    forall i | g.own[r] in g.kind && g.kind[g.own[r]].Page? ensures Slot(g.own[r], i) !in g.own {
      assert Slot(g.own[r], i) in g.own ==> RefOk(g, Slot(g.own[r], i));
    }
  }

  /** The entry of a dying table whose reference is gone is unconstrained. */
  lemma ForgetEntry(g: Graph, k: Kernel, r: Ref)
    requires Wf(g, k) && Droppable(g, r)
    ensures var g' := Forget(g, r);
            var t, i := TableOfRef(r), IndexOfRef(r);
            t in g'.kind && i < WORDS_PER_FRAME ==> t in g'.at && EntryOk(g', k, t, i)
  {
    Closed(g, k);
    hide FrameOk, RefOk, LinkOk, KernelOk;
  }

  // ---------- tables and directories on their way out ----------

  ghost function SlotsOf(own: map<Ref, nat>, t: nat): set<Ref> {
    set r | r in own && r.Slot? && r.table == t
  }

  /** The last reference to a table is gone: its own entries still hold references. */
  ghost function AgeTab(g: Graph, r: Ref): Graph
    requires r in g.own
  {
    g.(own := g.own - {r}, client := g.client[g.own[r] := Pending], kind := g.kind[g.own[r] := OldTab])
  }

  lemma AgeTabOk(g: Graph, k: Kernel, r: Ref)
    requires Wf(g, k) && Droppable(g, r)
    requires g.own[r] in g.kind && g.kind[g.own[r]].Tab? && CountOf(g.client, g.own[r]) == 1
    ensures Wf(AgeTab(g, r), k)
  {
    hide EntryOk, LinkOk, KernelOk, FrameOk, RefOk, Step, OneEntry, WritableStaySole, GoodWrite;
    var f, g' := g.own[r], AgeTab(g, r);
    NoRefsLeft(g, k, r);
    AgeTabStep(g, k, r);
    WriteNoneAged(g, g', k, r, {f});
    AgeTabLocal(g, k, r);
    StepOk(g, g', k, TableOfRef(r), IndexOfRef(r), {f}, {f}, SlotsOf(g'.own, f));
  }

  lemma AgeTabStep(g: Graph, k: Kernel, r: Ref)
    requires Wf(g, k) && Droppable(g, r) && Sole(g.own, g.own[r], r)
    requires g.own[r] in g.kind && g.kind[g.own[r]].Tab?
    ensures var f, g' := g.own[r], AgeTab(g, r);
            Step(g, g', {f}, {f}, SlotsOf(g'.own, f))
  {
    hide Wf, IsTable, Ent, FrameOk, RefsTo;
    var f, g' := g.own[r], AgeTab(g, r);
    Closed(g, k);
    RefsDrop(g.own, r);
  }

  lemma AgeTabLocal(g: Graph, k: Kernel, r: Ref)
    requires Wf(g, k) && Droppable(g, r) && Sole(g.own, g.own[r], r)
    requires g.own[r] in g.kind && g.kind[g.own[r]].Tab?
    ensures var f, g' := g.own[r], AgeTab(g, r);
            && FrameOk(g', f)
            && (forall q :: q in SlotsOf(g'.own, f) ==> RefOk(g', q) && LinkOk(g', k, q))
            && (forall i :: 0 <= i < WORDS_PER_FRAME ==> EntryOk(g', k, f, i))
    ensures var g' := AgeTab(g, r);
            var t, i := TableOfRef(r), IndexOfRef(r);
            t in g'.kind && i < WORDS_PER_FRAME ==> t in g'.at && EntryOk(g', k, t, i)
  {
    var f, g' := g.own[r], AgeTab(g, r);
    Closed(g, k);
    assert FrameOk(g, f);
    hide Wf, KernelOk, FrameOk, EntryOk;
    SlotsOk(g, k, f);
    forall i | 0 <= i < WORDS_PER_FRAME ensures EntryOk(g', k, f, i) {
      AgedEntry(g, g', k, f, i);
    }
    var t, i := TableOfRef(r), IndexOfRef(r);
    if t in g'.kind && i < WORDS_PER_FRAME && t != f {
      DroppedEntry(g', k, t, i);
    }
  }

  lemma DroppedEntry(g: Graph, k: Kernel, t: nat, i: nat)
    requires t in g.kind && t in g.at && (g.kind[t].OldDir? || g.kind[t].OldTab?) && Slot(t, i) !in g.own
    ensures EntryOk(g, k, t, i)
  {
  }

  /** Once a table is dying its entries are only asked to match the references it still holds. */
  lemma AgedEntry(g: Graph, g': Graph, k: Kernel, t: nat, i: nat)
    requires LiveTable(g, t) && t in g.at && EntryOk(g, k, t, i)
    requires t in g'.kind && t in g'.at && (g'.kind[t].OldDir? || g'.kind[t].OldTab?)
    requires g'.mem == g.mem && (Slot(t, i) in g'.own ==>
        Slot(t, i) in g.own && g'.own[Slot(t, i)] == g.own[Slot(t, i)])
    ensures EntryOk(g', k, t, i)
  {
  }

  lemma SlotsOk(g: Graph, k: Kernel, f: nat)
    requires Wf(g, k) && f in g.kind
    ensures forall q :: q in SlotsOf(g.own, f) ==> q in g.own && RefOk(g, q)
    ensures f in g.at && forall i :: 0 <= i < WORDS_PER_FRAME ==> EntryOk(g, k, f, i)
  {
    hide EntryOk, LinkOk, KernelOk, RefOk;
    assert FrameOk(g, f);
  }

  lemma WriteNoneAged(g: Graph, g': Graph, k: Kernel, r: Ref, aged: set<nat>)
    requires g'.mem == g.mem && g'.own == g.own - {r}
    requires forall t :: t in g'.kind ==> t in g.kind
    ensures OneEntry(g, g', TableOfRef(r), IndexOfRef(r), aged)
    ensures WritableStaySole(g, g', TableOfRef(r), IndexOfRef(r))
    ensures GoodWrite(g, g', k, TableOfRef(r), IndexOfRef(r))
  {
    hide Ent, KernelSlot, WritableTable;
  }

  /** A dead frame without references of its own is given back. */
  ghost function Bury(g: Graph, f: nat): Graph {
    g.(client := g.client - {f}, kind := g.kind - {f})
  }

  lemma BuryTabOk(g: Graph, k: Kernel, f: nat)
    requires Wf(g, k) && f in g.kind && g.kind[f].OldTab? && SlotsOf(g.own, f) == {}
    ensures Wf(Bury(g, f), k)
  {
    hide EntryOk, LinkOk, KernelOk, FrameOk, RefOk, OneEntry, WritableStaySole, GoodWrite, RefsTo, IsTable;
    var g' := Bury(g, f);
    Closed(g, k);
    NoRefsToOldTab(g, k, f);
    assert g.own - {Leaked(f)} == g.own;
    WriteNone(g, g', k, Leaked(f));
    assert forall q :: q in g.own && q.Slot? && q.table == f ==> q in SlotsOf(g.own, f);
    StepOk(g, g', k, TableOfRef(Leaked(f)), IndexOfRef(Leaked(f)), {}, {}, {});
  }

  lemma NoRefsToOldTab(g: Graph, k: Kernel, f: nat)
    requires Wf(g, k) && f in g.kind && g.kind[f].OldTab?
    ensures forall q :: q in g.own ==> g.own[q] != f
    ensures Leaked(f) !in g.own
  {
    hide EntryOk, LinkOk, KernelOk, FrameOk;
    forall q | q in g.own ensures g.own[q] != f {
      assert RefOk(g, q);
    }
    assert Leaked(f) in g.own ==> RefOk(g, Leaked(f));
  }

  /** destroy_pd starts: the directory's entries will be given up one by one. */
  ghost function AgeDir(g: Graph, d: nat): Graph {
    g.(kind := g.kind[d := OldDir])
  }

  lemma AgeDirOk(g: Graph, k: Kernel, d: nat)
    requires Wf(g, k) && d in g.kind && g.kind[d].Dir? && Hand(d) !in g.own
    ensures Wf(AgeDir(g, d), k)
  {
    hide EntryOk, LinkOk, KernelOk, FrameOk, RefOk, Step, OneEntry, WritableStaySole, GoodWrite;
    var g' := AgeDir(g, d);
    NoLeak(g, k, d);
    assert g.own - {Leaked(d)} == g.own;
    WriteNoneAged(g, g', k, Leaked(d), {d});
    AgeDirStep(g, k, d);
    AgeDirLocal(g, k, d);
    StepOk(g, g', k, TableOfRef(Leaked(d)), IndexOfRef(Leaked(d)), {d}, {d},
           SlotsOf(g.own, d) + RefsTo(g.own, d));
  }

  lemma NoLeak(g: Graph, k: Kernel, d: nat)
    requires Wf(g, k) && d in g.kind && !g.kind[d].Page?
    ensures Leaked(d) !in g.own
  {
    hide EntryOk, LinkOk, KernelOk, FrameOk;
    assert Leaked(d) in g.own ==> RefOk(g, Leaked(d));
  }

  lemma AgeDirStep(g: Graph, k: Kernel, d: nat)
    requires Wf(g, k) && d in g.kind && g.kind[d].Dir?
    ensures Step(g, AgeDir(g, d), {d}, {d}, SlotsOf(g.own, d) + RefsTo(g.own, d))
  {
    hide Wf, IsTable, Ent, FrameOk;
    Closed(g, k);
  }

  lemma AgeDirLocal(g: Graph, k: Kernel, d: nat)
    requires Wf(g, k) && d in g.kind && g.kind[d].Dir? && Hand(d) !in g.own
    ensures var g' := AgeDir(g, d);
            && FrameOk(g', d)
            && (forall q :: q in SlotsOf(g.own, d) + RefsTo(g.own, d) ==> RefOk(g', q) && LinkOk(g', k, q))
            && (forall i :: 0 <= i < WORDS_PER_FRAME ==> EntryOk(g', k, d, i))
  {
    var g' := AgeDir(g, d);
    Closed(g, k);
    assert FrameOk(g, d);
    hide Wf, KernelOk, FrameOk, EntryOk;
    SlotsOk(g, k, d);
    forall i | 0 <= i < WORDS_PER_FRAME ensures EntryOk(g', k, d, i) {
      AgedEntry(g, g', k, d, i);
    }
    forall q | q in SlotsOf(g.own, d) + RefsTo(g.own, d) ensures RefOk(g', q) && LinkOk(g', k, q) {
      RefIsOk(g, k, q);
    }
  }

  lemma RefIsOk(g: Graph, k: Kernel, r: Ref)
    requires Wf(g, k) && r in g.own
    ensures RefOk(g, r) && LinkOk(g, k, r)
  {
    hide RefOk, LinkOk;
  }

  /** destroy_pd ends: the directory itself goes. */
  ghost function DropDir(g: Graph, r: Ref): Graph
    requires r in g.own
  {
    g.(own := g.own - {r}, client := g.client - {g.own[r]}, kind := g.kind - {g.own[r]})
  }

  lemma DropDirMoves(g: Graph, k: Kernel, r: Ref)
    requires Wf(g, k) && r in g.own && r.Root? && g.own[r] in g.kind && g.kind[g.own[r]].OldDir?
    requires CountOf(g.client, g.own[r]) == 1 && SlotsOf(g.own, g.own[r]) == {}
    ensures Step(g, DropDir(g, r), {}, {}, {})
    ensures !(TableOfRef(r) in DropDir(g, r).kind && IndexOfRef(r) < WORDS_PER_FRAME)
  {
    hide Wf, RefsTo, IsTable;
    var f := g.own[r];
    Closed(g, k);
    NoRefsLeft(g, k, r);
    RefsDrop(g.own, r);
    assert forall q :: q in g.own && q.Slot? && q.table == f ==> q in SlotsOf(g.own, f);
  }

  lemma DropDirOk(g: Graph, k: Kernel, r: Ref)
    requires Wf(g, k) && r in g.own && r.Root? && g.own[r] in g.kind && g.kind[g.own[r]].OldDir?
    requires CountOf(g.client, g.own[r]) == 1 && SlotsOf(g.own, g.own[r]) == {}
    ensures Wf(DropDir(g, r), k)
  {
    hide Wf, Step, OneEntry, WritableStaySole, GoodWrite, FrameOk, RefOk, LinkOk, EntryOk;
    var g' := DropDir(g, r);
    DropDirMoves(g, k, r);
    WriteNone(g, g', k, r);
    StepOk(g, g', k, TableOfRef(r), IndexOfRef(r), {}, {}, {});
  }

  // ---------- renaming a reference ----------

  /** A local variable's reference becomes a process's cr3, or is left behind. */
  ghost function Rename(g: Graph, f: nat, r: Ref): Graph {
    g.(own := (g.own - {Hand(f)})[r := f])
  }

  lemma RenameOk(g: Graph, k: Kernel, f: nat, r: Ref)
    requires Wf(g, k) && Hand(f) in g.own && r !in g.own && (r.Root? || r == Leaked(f))
    requires f in g.kind && (if r.Root? then g.kind[f].Dir? else g.kind[f].Page?)
    requires r.Root? ==> forall i :: 0 <= i < WORDS_PER_FRAME && KDir(k, i) ==> Ent(g.mem, f, i).p
    ensures Wf(Rename(g, f, r), k)
  {
    hide EntryOk, KernelOk, FrameOk, RefOk, OneEntry, WritableStaySole, GoodWrite, RefsTo, IsTable;
    var g' := Rename(g, f, r);
    Closed(g, k);
    RenameLocal(g, k, f, r);
    WriteNoneRename(g, g', k, f, r);
    StepOk(g, g', k, 0, WORDS_PER_FRAME, {f}, {}, {r});
  }

  lemma WriteNoneRename(g: Graph, g': Graph, k: Kernel, f: nat, r: Ref)
    requires Wf(g, k) && Hand(f) in g.own && g.own[Hand(f)] == f && !r.Slot? && g' == Rename(g, f, r)
    ensures OneEntry(g, g', 0, WORDS_PER_FRAME, {})
    ensures WritableStaySole(g, g', 0, WORDS_PER_FRAME)
    ensures GoodWrite(g, g', k, 0, WORDS_PER_FRAME)
  {
    hide Wf, IsTable, KernelSlot, WritableTable;
    forall u, j | LiveTable(g, u) && u in g'.kind && 0 <= j < WORDS_PER_FRAME &&
      Names(Ent(g.mem, u, j)) && Ent(g.mem, u, j).rw
      ensures NoNewRefs(g, g', Ent(g.mem, u, j).frame)
    {
      SoleEntry(g, k, u, j);
    }
  }

  lemma RenameLocal(g: Graph, k: Kernel, f: nat, r: Ref)
    requires Wf(g, k) && Hand(f) in g.own && r !in g.own && (r.Root? || r == Leaked(f))
    requires f in g.kind && (if r.Root? then g.kind[f].Dir? else g.kind[f].Page?)
    ensures var g' := Rename(g, f, r);
            && g.own[Hand(f)] == f
            && FrameOk(g', f) && RefOk(g', r)
            && forall h :: h != f ==> RefsTo(g'.own, h) == RefsTo(g.own, h)
  {
    hide EntryOk, LinkOk, KernelOk;
    var g' := Rename(g, f, r);
    assert RefOk(g, Hand(f));
    assert FrameOk(g, f);
    RefsMove(g.own, Hand(f), r);
    assert r in g'.own;
  }
}
