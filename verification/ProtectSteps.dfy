/** Write protection of an address space before fork (write_protect, kernel/vmm.cc). */
module ProtectSteps {
  import opened Frames
  import opened PhysMem
  import opened PageGraph
  import opened VmmSteps
  import opened DirSteps

  ghost predicate SameButRw(w: Word, w': Word) {
    w' == w.(rw := w'.rw)
  }

  /** Only RW bits of directories and tables may differ; no reference, count or page does. */
  ghost predicate RwOnly(g: Graph, g': Graph) {
    && g'.client == g.client && g'.own == g.own && g'.kind == g.kind && g'.at == g.at
    && HeldKept(g, g')
    && (forall f :: f in g.kind && f in g.mem ==> f in g'.mem && (g'.mem[f] == g.mem[f] || LiveTable(g, f)))
    && (forall t, i :: LiveTable(g, t) && 0 <= i < WORDS_PER_FRAME ==> SameButRw(Ent(g.mem, t, i), Ent(g'.mem, t, i)))
  }

  lemma RwOnlyTrans(g0: Graph, g1: Graph, g2: Graph)
    requires RwOnly(g0, g1) && RwOnly(g1, g2)
    ensures RwOnly(g0, g2)
  {
  }

  lemma RwOnlyEntry(g: Graph, kpd: nat, k: Kernel, t: nat, i: nat, b: bool)
    requires Good(g, kpd, k) && LiveTable(g, t) && i < WORDS_PER_FRAME
    ensures IsTable(g.mem, t) && RwOnly(g, Rewrite(g, t, i, Ent(g.mem, t, i).(rw := b)))
  {
    hide Good, IsTable, Ent, SetEnt;
    Known(g, kpd, k);
    SetEntOne(g.mem, t, i, Ent(g.mem, t, i).(rw := b));
  }

  /** No process sees a difference. */
  lemma RwOnlyView(g: Graph, g': Graph, kpd: nat, k: Kernel, d: nat)
    requires Good(g, kpd, k) && RwOnly(g, g') && d in g.kind && g.kind[d].Dir?
    ensures SameView(g, g', d, d)
    ensures LiveDir(g, k, d) && IsTable(g'.mem, d) ==> LiveDir(g', k, d)
  {
    hide Good, IsTable, Ent, KDir;
    forall i, j | 0 <= i < WORDS_PER_FRAME && 0 <= j < WORDS_PER_FRAME
      ensures View(g'.mem, d, i, j) == View(g.mem, d, i, j)
    {
      assert SameButRw(Ent(g.mem, d, i), Ent(g'.mem, d, i));
      if Names(Ent(g.mem, d, i)) {
        TabsKnown(g, kpd, k, d, i);
        var t := Ent(g.mem, d, i).frame;
        assert SameButRw(Ent(g.mem, t, j), Ent(g'.mem, t, j));
        PagesKnown(g, kpd, k, t, j);
      }
    }
  }

  /** The graph before entry i of directory d lost its RW bit. */
  ghost function Shadow(g: Graph, d: nat, i: nat, w: Word): Graph
    requires IsTable(g.mem, d) && i < WORDS_PER_FRAME
  {
    Rewrite(g, d, i, w)
  }

  ghost predicate WritableKernelEntry(w: Word) {
    w.p && w.rw && !w.ng
  }

  /** Inside the loop over a table: g is the graph with the directory entry still writable. */
  ghost predicate Protecting(g: Graph, t: nat, n: nat, b: bool) {
    && (forall j :: 0 <= j < n ==> !(Names(Ent(g.mem, t, j)) && Ent(g.mem, t, j).rw))
    && (b <==> exists j :: 0 <= j < n && WritableKernelEntry(Ent(g.mem, t, j)))
  }

  lemma ProtectRound(g: Graph, kpd: nat, k: Kernel, t: nat, n: nat, b: bool)
    requires Good(g, kpd, k) && LiveTable(g, t) && g.kind[t].Tab? && n < WORDS_PER_FRAME
    requires Protecting(g, t, n, b) && Names(Ent(g.mem, t, n)) && Ent(g.mem, t, n).rw
    ensures IsTable(g.mem, t)
    ensures var g' := Rewrite(g, t, n, Ent(g.mem, t, n).(rw := false));
            Good(g', kpd, k) && RwOnly(g, g') && Protecting(g', t, n + 1, b)
  {
    hide Wf, KernelThere, IsTable, Ent, SetEnt;
    var w := Ent(g.mem, t, n).(rw := false);
    Known(g, kpd, k);
    ProtectOk(g, k, t, n);
    SetEntOne(g.mem, t, n, w);
    var g' := Rewrite(g, t, n, w);
    KernelKept(g, g', kpd, k);
    RwOnlyEntry(g, kpd, k, t, n, false);
    if b {
      var j :| 0 <= j < n && WritableKernelEntry(Ent(g.mem, t, j));
      assert WritableKernelEntry(Ent(g'.mem, t, j));
    }
  }

  lemma ProtectSkip(g: Graph, t: nat, n: nat, b: bool)
    requires Protecting(g, t, n, b) && !(Names(Ent(g.mem, t, n)) && Ent(g.mem, t, n).rw)
    ensures Protecting(g, t, n + 1, b || WritableKernelEntry(Ent(g.mem, t, n)))
  {
    hide Ent;
    if b {
      var j :| 0 <= j < n && WritableKernelEntry(Ent(g.mem, t, j));
      assert 0 <= j < n + 1;
    }
  }

  /** A private table with kernel entries always shows one to the loop. */
  lemma GlobalTableFound(g: Graph, kpd: nat, k: Kernel, d: nat, i: nat, b: bool)
    requires Good(g, kpd, k) && LiveDir(g, k, d) && i < WORDS_PER_FRAME
    requires Names(Ent(g.mem, d, i)) && Ent(g.mem, d, i).g
    requires Protecting(g, Ent(g.mem, d, i).frame, WORDS_PER_FRAME, b)
    ensures b
  {
    hide KernelThere, LinkOk, RefOk, FrameOk, LiveDir;
    DirEntry(g, kpd, k, d, i);
    var t := Ent(g.mem, d, i).frame;
    assert KernelTableOk(k.dir[i], k.tabs[i]);
    var j :| 0 <= j < |k.tabs[i]| && k.tabs[i][j].p;
    assert KMaps(k, i, j);
    assert EntryOk(g, k, t, j);
    assert KernelWord(k.tabs[i][j]);
    assert WritableKernelEntry(Ent(g.mem, t, j));
  }

  /** After the loop the directory entry may be read-only unless the table has kernel entries. */
  lemma ProtectDirEntry(g: Graph, kpd: nat, k: Kernel, d: nat, i: nat, b: bool)
    requires Good(g, kpd, k) && LiveDir(g, k, d) && i < WORDS_PER_FRAME
    requires Names(Ent(g.mem, d, i)) && Ent(g.mem, d, i).rw
    requires Protecting(g, Ent(g.mem, d, i).frame, WORDS_PER_FRAME, b)
    ensures IsTable(g.mem, d)
    ensures var g' := Rewrite(g, d, i, Ent(g.mem, d, i).(rw := b));
            && Good(g', kpd, k) && RwOnly(g, g') && NothingWritable(g'.mem, Ent(g.mem, d, i).frame)
            && (b ==> HasKernelPages(g'.mem, Ent(g.mem, d, i).frame))
  {
    hide Wf, KernelThere, SetEnt, IsTable, Ent, KDir;
    LiveDirKnown(g, k, d);
    TabsKnown(g, kpd, k, d, i);
    var e := Ent(g.mem, d, i);
    SetEntOne(g.mem, d, i, e.(rw := b));
    RwOnlyEntry(g, kpd, k, d, i, b);
    if b {
      assert e.(rw := b) == e;
      SetSame(g.mem, d, i);
    } else {
      if e.g {
        GlobalTableFound(g, kpd, k, d, i, b);
      }
      ProtectOk(g, k, d, i);
      Known(g, kpd, k);
      KernelKept(g, Rewrite(g, d, i, e.(rw := b)), kpd, k);
    }
  }

  lemma SetSame(mem: Memory, t: nat, i: nat)
    requires IsTable(mem, t) && i < WORDS_PER_FRAME
    ensures SetEnt(mem, t, i, Ent(mem, t, i)) == mem
  {
    assert mem[t].ws[i := mem[t].ws[i]] == mem[t].ws;
  }

  lemma SetTwice(mem: Memory, t: nat, i: nat, v: Word, w: Word)
    requires IsTable(mem, t) && i < WORDS_PER_FRAME
    ensures IsTable(SetEnt(mem, t, i, v), t)
    ensures SetEnt(SetEnt(mem, t, i, v), t, i, w) == SetEnt(mem, t, i, w)
  {
    assert mem[t].ws[i := v][i := w] == mem[t].ws[i := w];
  }

  lemma SetCommute(mem: Memory, t: nat, i: nat, v: Word, u: nat, j: nat, w: Word)
    requires IsTable(mem, t) && IsTable(mem, u) && i < WORDS_PER_FRAME && j < WORDS_PER_FRAME && t != u
    ensures IsTable(SetEnt(mem, t, i, v), u) && IsTable(SetEnt(mem, u, j, w), t)
    ensures SetEnt(SetEnt(mem, t, i, v), u, j, w) == SetEnt(SetEnt(mem, u, j, w), t, i, v)
  {
  }

  /** No private page below directory d is writable at index i, and the entry itself is writable only
      over a table with kernel entries. */
  ghost predicate ProtectedAt(mem: Memory, d: nat, i: nat) {
    Names(Ent(mem, d, i)) ==>
      && NothingWritable(mem, Ent(mem, d, i).frame)
      && (Ent(mem, d, i).rw ==> HasKernelPages(mem, Ent(mem, d, i).frame))
  }

  ghost predicate HasKernelPages(mem: Memory, t: nat) {
    exists j :: 0 <= j < WORDS_PER_FRAME && WritableKernelEntry(Ent(mem, t, j))
  }

  lemma RwOnlyRefl(g: Graph)
    ensures RwOnly(g, g)
  {
  }

  lemma ProtectBegin(g: Graph, t: nat)
    ensures Protecting(g, t, 0, false)
  {
  }

  /** The loop over a table is done: the shadow and the real graph meet again. */
  lemma ProtectEnd(g: Graph, s: Graph, g': Graph, kpd: nat, k: Kernel, d: nat, i: nat, e: Word, b: bool)
    requires Good(g, kpd, k) && LiveDir(g, k, d) && i < WORDS_PER_FRAME && e == Ent(g.mem, d, i) && Names(e) && e.rw
    requires IsTable(g'.mem, d) && s == Shadow(g', d, i, e) && Ent(g'.mem, d, i) == e.(rw := b)
    requires Good(s, kpd, k) && RwOnly(g, s) && Protecting(s, e.frame, WORDS_PER_FRAME, b)
    ensures Good(g', kpd, k) && RwOnly(g, g') && ProtectedAt(g'.mem, d, i)
  {
    hide Good, RwOnly, Protecting, LiveDir, NothingWritable, HasKernelPages, KDir, IsTable, Ent, SetEnt;
    SetEntOne(g'.mem, d, i, e);
    SetTwice(g'.mem, d, i, e, e.(rw := b));
    SetSame(g'.mem, d, i);
    assert Rewrite(s, d, i, e.(rw := b)) == g';
    LiveDirKnown(g, k, d);
    RwOnlyKind(g, s, d);
    RwOnlyView(g, s, kpd, k, d);
    ProtectDirEntry(s, kpd, k, d, i, b);
    RwOnlyTrans(g, s, g');
  }

  lemma RwOnlyKind(g: Graph, g': Graph, d: nat)
    requires RwOnly(g, g')
    ensures g'.kind == g.kind
  {
  }

  /** Protecting one table leaves the directory live and the earlier tables protected. */
  lemma ProtectOthers(g: Graph, g': Graph, kpd: nat, k: Kernel, d: nat, n: nat)
    requires Good(g, kpd, k) && Good(g', kpd, k) && RwOnly(g, g') && LiveDir(g, k, d) && n < WORDS_PER_FRAME
    requires Names(Ent(g.mem, d, n)) && Ent(g.mem, d, n).rw
    requires forall t, i :: t != Ent(g.mem, d, n).frame && (t != d || i != n) ==> Ent(g'.mem, t, i) == Ent(g.mem, t, i)
    ensures LiveDir(g', k, d)
    ensures forall i :: 0 <= i < n && ProtectedAt(g.mem, d, i) ==> ProtectedAt(g'.mem, d, i)
  {
    hide Good, KDir, RwOnly, LiveDir, IsTable;
    LiveDirKnown(g, k, d);
    RwOnlyKind(g, g', d);
    Known(g', kpd, k);
    RwOnlyView(g, g', kpd, k, d);
    DirEntry(g, kpd, k, d, n);
    forall i | 0 <= i < n && ProtectedAt(g.mem, d, i) ensures ProtectedAt(g'.mem, d, i) {
      if Names(Ent(g'.mem, d, i)) {
        DirSlotTab(g, k, d, n);
        DirEntry(g, kpd, k, d, i);
        OtherTable(g, k, d, i, n);
      }
    }
  }

  /** A writable entry and another entry of the same directory name different tables. */
  lemma OtherTable(g: Graph, k: Kernel, d: nat, i: nat, n: nat)
    requires i != n && d in g.kind && g.kind[d].Dir?
    requires DirSlot(g, k, d, n) && Ent(g.mem, d, n).rw && DirSlot(g, k, d, i)
    ensures Ent(g.mem, d, i).frame != Ent(g.mem, d, n).frame && Ent(g.mem, d, n).frame != d
  {
  }

  lemma ProtectedAlready(g: Graph, kpd: nat, k: Kernel, d: nat, i: nat)
    requires Good(g, kpd, k) && LiveDir(g, k, d) && i < WORDS_PER_FRAME
    requires !(Names(Ent(g.mem, d, i)) && Ent(g.mem, d, i).rw)
    ensures ProtectedAt(g.mem, d, i)
  {
    hide Good, LiveDir;
    DirEntry(g, kpd, k, d, i);
  }
}
