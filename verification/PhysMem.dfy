/** The frame allocator and the two-level reference counters (kernel/physmem.h, kernel/physmem.cc). */
module PhysMem {
  import opened Frames
  import opened Sets

  /** What the allocator's clients hold: a counted frame, a frame whose last reference is gone but
      whose destroy callback still runs, a frame handed out without a count, or one that the kernel
      counted once and keeps for good. */
  datatype Client = Counted(n: nat) | Pending | Held | Pinned

  /** Frames the kernel never gives back. */
  ghost predicate Fixed(c: Client) {
    c.Held? || c.Pinned?
  }

  ghost predicate Tracked(c: Clients, f: nat) {
    f in c && !Fixed(c[f])
  }

  /** What every frame below the high-water mark is used for. */
  datatype Usage = Free | Table(r: nat) | ClientFrame

  type Clients = map<nat, Client>
  type Usages = map<nat, Usage>
  type Memory = map<nat, Frame>

  // ---------- who weighs on a counter table ----------

  ghost predicate Weighs(c: Clients, f: nat) {
    f in c && !c[f].Held?
  }

  ghost function CountOf(c: Clients, f: nat): nat {
    if f in c then Count(c[f]) else 0
  }

  ghost function Count(c: Client): nat {
    match c
    case Counted(n) => n
    case Pinned => 1
    case _ => 0
  }

  /** The frames whose counter lives in table r and has not been given up. */
  ghost function Members(c: Clients, start: nat, r: nat): set<nat> {
    set f | f in c && Weighs(c, f) && start <= f && (f - start) / COUNTERS_PER_FRAME == r
  }

  ghost function Span(lo: nat, n: nat): (s: set<nat>)
    ensures |s| == n
    ensures forall f :: f in s <==> lo <= f < lo + n
  {
    if n == 0 then {} else Span(lo, n - 1) + {lo + n - 1}
  }

  /** A table never counts more than its 2048 counters, so the count never reaches the address bits. */
  lemma MembersBound(c: Clients, start: nat, r: nat)
    ensures |Members(c, start, r)| <= 2048
  {
    SubsetCard(Members(c, start, r), Span(start + r * COUNTERS_PER_FRAME, COUNTERS_PER_FRAME));
  }

  lemma MembersSame(c: Clients, d: Clients, start: nat, r: nat)
    requires forall f :: Weighs(c, f) <==> Weighs(d, f)
    ensures Members(c, start, r) == Members(d, start, r)
  {
    assert forall f :: f in Members(c, start, r) ==> Weighs(d, f);
    assert forall f :: f in Members(d, start, r) ==> Weighs(c, f);
  }

  lemma MembersGain(c: Clients, d: Clients, start: nat, r: nat, p: nat)
    requires start <= p && !Weighs(c, p) && Weighs(d, p)
    requires forall f :: f != p ==> (Weighs(c, f) <==> Weighs(d, f))
    ensures Members(d, start, r) ==
            Members(c, start, r) + (if (p - start) / COUNTERS_PER_FRAME == r then {p} else {})
    ensures p !in Members(c, start, r)
  {
    assert forall f :: f in Members(c, start, r) ==> Weighs(d, f);
    assert forall f :: f in Members(d, start, r) && f != p ==> Weighs(c, f);
  }

  // ---------- the free list ----------

  ghost function At(free: seq<nat>, k: nat): nat {
    if k < |free| then free[k] else 0
  }

  ghost predicate LinkAt(free: seq<nat>, mem: Memory, use: Usages, k: nat)
    requires k < |free|
  {
    && 0 < free[k] && free[k] in use && use[free[k]].Free?
    && free[k] in mem && mem[free[k]] == Link(At(free, k + 1))
  }

  /** The links stored inside the free frames spell out the sequence free, each frame once. */
  ghost predicate FreeListOk(first: nat, free: seq<nat>, mem: Memory, use: Usages) {
    && (forall k :: 0 <= k < |free| ==> LinkAt(free, mem, use, k))
    && (forall j, k :: 0 <= j < k < |free| ==> free[j] != free[k])
    && (forall f :: f in use && use[f].Free? ==> f in free)
    && first == At(free, 0)
  }

  lemma FreeListTake(first: nat, free: seq<nat>, mem: Memory, use: Usages, fr: Frame, u: Usage)
    requires FreeListOk(first, free, mem, use) && first != 0 && !u.Free?
    ensures free != [] && first == free[0] && first in mem && mem[first].Link?
    ensures first in use && use[first].Free?
    ensures FreeListOk(mem[first].next, free[1..], mem[first := fr], use[first := u])
  {
    assert LinkAt(free, mem, use, 0);
    var mem', use', rest := mem[first := fr], use[first := u], free[1..];
    forall k | 0 <= k < |rest| ensures LinkAt(rest, mem', use', k) {
      assert LinkAt(free, mem, use, k + 1);
    }
    forall f | f in use' && use'[f].Free? ensures f in rest {
      var k :| 0 <= k < |free| && free[k] == f;
      assert rest[k - 1] == f;
    }
  }

  lemma FreeListFirst(first: nat, free: seq<nat>, mem: Memory, use: Usages)
    requires FreeListOk(first, free, mem, use)
    ensures first == At(free, 0) && (first == 0 <==> free == [])
    ensures free != [] ==> first in use && use[first].Free? && first in mem && mem[first] == Link(At(free, 1))
  {
    assert free != [] ==> LinkAt(free, mem, use, 0);
  }

  /** Frames that are not on the list may change content and role. */
  lemma FreeListFrame(first: nat, free: seq<nat>, mem: Memory, use: Usages, p: nat, fr: Frame, u: Usage)
    requires FreeListOk(first, free, mem, use) && !u.Free?
    requires p in use ==> !use[p].Free?
    ensures FreeListOk(first, free, mem[p := fr], use[p := u])
  {
    var mem', use' := mem[p := fr], use[p := u];
    forall k | 0 <= k < |free| ensures LinkAt(free, mem', use', k) {
      assert LinkAt(free, mem, use, k);
    }
  }

  lemma FreeListPut(first: nat, free: seq<nat>, mem: Memory, use: Usages, p: nat)
    requires FreeListOk(first, free, mem, use) && 0 < p && p in use && !use[p].Free?
    ensures FreeListOk(p, [p] + free, mem[p := Link(first)], use[p := Free])
  {
    var l, mem', use' := [p] + free, mem[p := Link(first)], use[p := Free];
    forall k | 0 <= k < |l| ensures LinkAt(l, mem', use', k) {
      if k > 0 {
        assert LinkAt(free, mem, use, k - 1);
      }
    }
    forall j, k | 0 <= j < k < |l| ensures l[j] != l[k] {
      assert LinkAt(free, mem, use, k - 1);
    }
    forall f | f in use' && use'[f].Free? ensures f in l {
      assert f != p ==> f in free;
    }
  }

  // ---------- the counter tables ----------

  ghost predicate TableAt(refs: seq<nat>, mem: Memory, use: Usages, c: Clients, start: nat, r: nat) {
    && r < |refs|
    && var t := refs[r] / FRAME_SIZE;
    && t in use && use[t] == Table(r)
    && t in mem && mem[t].Counters? && |mem[t].cs| == COUNTERS_PER_FRAME
    && forall k :: 0 <= k < COUNTERS_PER_FRAME ==>
        mem[t].cs[k] == CountOf(c, start + r * COUNTERS_PER_FRAME + k)
  }

  /** The tables in live exist and hold the counts of their 2048 frames; there are no others. */
  ghost predicate TablesOk(refs: seq<nat>, mem: Memory, use: Usages, c: Clients, start: nat, live: set<nat>) {
    && (forall r :: r in live ==> TableAt(refs, mem, use, c, start, r))
    && (forall f :: f in use && use[f].Table? ==>
        use[f].r in live && use[f].r < |refs| && refs[use[f].r] / FRAME_SIZE == f)
  }

  /** The low 12 bits of each entry count its members. */
  ghost predicate PopulationOk(refs: seq<nat>, c: Clients, start: nat) {
    forall r :: 0 <= r < |refs| ==> refs[r] % FRAME_SIZE == |Members(c, start, r)|
  }

  ghost function Live(refs: seq<nat>): set<nat> {
    set r | 0 <= r < |refs| && refs[r] % FRAME_SIZE != 0
  }

  lemma TablesFrame(refs: seq<nat>, mem: Memory, use: Usages, c: Clients, start: nat, live: set<nat>,
                    mem': Memory, use': Usages, c': Clients)
    requires TablesOk(refs, mem, use, c, start, live)
    requires forall f :: f in use && use[f].Table? ==> f in use' && use'[f] == use[f]
    requires forall f :: f in use && use[f].Table? && f in mem ==> f in mem' && mem'[f] == mem[f]
    requires forall f :: f in use' && use'[f].Table? ==> f in use && use'[f] == use[f]
    requires forall f: nat :: CountOf(c', f) == CountOf(c, f)
    ensures TablesOk(refs, mem', use', c', start, live)
  {
    forall r | r in live ensures TableAt(refs, mem', use', c', start, r) {
      assert TableAt(refs, mem, use, c, start, r);
    }
  }

  /** A zeroed frame becomes table r when none of the frames of r is counted. */
  lemma TablesNew(refs: seq<nat>, mem: Memory, use: Usages, c: Clients, start: nat, live: set<nat>, r: nat, t: nat)
    requires TablesOk(refs, mem, use, c, start, live) && r !in live && r < |refs|
    requires t in use && use[t].ClientFrame?
    requires Members(c, start, r) == {}
    ensures TablesOk(refs[r := t * FRAME_SIZE], mem[t := ZeroCounters()], use[t := Table(r)], c, start, live + {r})
  {
    var refs', mem', use' := refs[r := t * FRAME_SIZE], mem[t := ZeroCounters()], use[t := Table(r)];
    forall q | q in live + {r} ensures TableAt(refs', mem', use', c, start, q) {
      if q == r {
        forall k | 0 <= k < COUNTERS_PER_FRAME
          ensures mem'[t].cs[k] == CountOf(c, start + r * COUNTERS_PER_FRAME + k)
        {
          var f := start + r * COUNTERS_PER_FRAME + k;
          assert (f - start) / COUNTERS_PER_FRAME == r;
          assert f !in Members(c, start, r);
        }
      } else {
        assert TableAt(refs, mem, use, c, start, q);
      }
    }
  }

  /** Writing one counter and changing the same frame's count keeps the tables right. */
  lemma TablesCount(refs: seq<nat>, mem: Memory, use: Usages, c: Clients, start: nat, live: set<nat>,
                    p: nat, n: nat, c': Clients)
    requires TablesOk(refs, mem, use, c, start, live) && start <= p
    requires (p - start) / COUNTERS_PER_FRAME in live
    requires forall f :: f != p ==> CountOf(c', f) == CountOf(c, f)
    requires CountOf(c', p) == n
    ensures var r, k := (p - start) / COUNTERS_PER_FRAME, (p - start) % COUNTERS_PER_FRAME;
            && TableAt(refs, mem, use, c, start, r)
            && mem[refs[r] / FRAME_SIZE].cs[k] == CountOf(c, p)
            && var t := refs[r] / FRAME_SIZE;
            TablesOk(refs, mem[t := Counters(mem[t].cs[k := n])], use, c', start, live)
  {
    var r, k := (p - start) / COUNTERS_PER_FRAME, (p - start) % COUNTERS_PER_FRAME;
    assert TableAt(refs, mem, use, c, start, r);
    assert p == start + r * COUNTERS_PER_FRAME + k;
    var t := refs[r] / FRAME_SIZE;
    var mem' := mem[t := Counters(mem[t].cs[k := n])];
    forall q | q in live ensures TableAt(refs, mem', use, c', start, q) {
      assert TableAt(refs, mem, use, c, start, q);
    }
  }

  /** Changing only the low bits of an entry leaves the tables where they are. */
  lemma TablesLow(refs: seq<nat>, mem: Memory, use: Usages, c: Clients, start: nat, live: set<nat>, r: nat, w: nat)
    requires TablesOk(refs, mem, use, c, start, live) && r < |refs|
    requires w / FRAME_SIZE == refs[r] / FRAME_SIZE
    ensures TablesOk(refs[r := w], mem, use, c, start, live)
  {
    forall q | q in live ensures TableAt(refs[r := w], mem, use, c, start, q) {
      assert TableAt(refs, mem, use, c, start, q);
    }
  }

  /** A table none of whose frames is a member may be given back. */
  lemma TablesDrop(refs: seq<nat>, mem: Memory, use: Usages, c: Clients, start: nat, live: set<nat>, r: nat, fr: Frame)
    requires TablesOk(refs, mem, use, c, start, live) && r in live
    ensures r < |refs| && refs[r] / FRAME_SIZE in use
    ensures var t := refs[r] / FRAME_SIZE;
            TablesOk(refs, mem[t := fr], use[t := Free], c, start, live - {r})
  {
    assert TableAt(refs, mem, use, c, start, r);
    var t := refs[r] / FRAME_SIZE;
    forall q | q in live - {r} ensures TableAt(refs, mem[t := fr], use[t := Free], c, start, q) {
      assert TableAt(refs, mem, use, c, start, q);
    }
  }

  // ---------- population of a table ----------

  lemma HeldKeepsPopulation(refs: seq<nat>, c: Clients, start: nat, p: nat)
    requires PopulationOk(refs, c, start)
    requires p !in c
    ensures PopulationOk(refs, c[p := Held], start)
    ensures forall f: nat :: CountOf(c[p := Held], f) == CountOf(c, f)
  {
    forall r | 0 <= r < |refs| ensures refs[r] % FRAME_SIZE == |Members(c[p := Held], start, r)| {
      MembersSame(c, c[p := Held], start, r);
    }
  }

  lemma UncountKeepsPopulation(refs: seq<nat>, c: Clients, start: nat, p: nat)
    requires PopulationOk(refs, c, start)
    requires p in c && c[p].Held?
    ensures PopulationOk(refs, c - {p}, start)
    ensures forall f: nat :: CountOf(c - {p}, f) == CountOf(c, f)
  {
    forall r | 0 <= r < |refs| ensures refs[r] % FRAME_SIZE == |Members(c - {p}, start, r)| {
      MembersSame(c, c - {p}, start, r);
    }
  }

  lemma EmptyTable(refs: seq<nat>, c: Clients, start: nat, r: nat, t: nat)
    requires PopulationOk(refs, c, start) && r < |refs| && refs[r] % FRAME_SIZE == 0
    ensures Members(c, start, r) == {}
    ensures PopulationOk(refs[r := t * FRAME_SIZE], c, start)
  {
  }

  // ---------- the allocator's state and its steps ----------

  /** All fields of the allocator: refs packs an address and a population per counter table, first
      heads the free list and avail is the high-water mark. */
  datatype State = State(
    start: nat, limit: nat, refs: seq<nat>, avail: nat, first: nat, mem: Memory,
    free: seq<nat>, use: Usages, client: Clients)

  ghost predicate LayoutOk(s: State) {
    && 0 < s.start <= s.avail <= s.limit <= 0x10_0000
    && s.start < s.limit
    && |s.refs| == (s.limit - s.start - 1) / COUNTERS_PER_FRAME + 1
    && (forall f :: f in s.use <==> s.start <= f < s.avail)
    && (forall f :: f in s.client <==> f in s.use && s.use[f].ClientFrame?)
    && (forall f :: f in s.client ==> f in s.mem && CountBound(s.client[f]))
  }

  ghost predicate CountBound(c: Client) {
    c.Counted? ==> 1 <= c.n < 0x1_0000
  }

  /** The invariant, with the set of counter tables that exist given explicitly. */
  ghost predicate Ok(s: State, live: set<nat>) {
    && LayoutOk(s)
    && FreeListOk(s.first, s.free, s.mem, s.use)
    && PopulationOk(s.refs, s.client, s.start)
    && TablesOk(s.refs, s.mem, s.use, s.client, s.start, live)
  }

  /** Between operations exactly the tables with a non-zero population exist. */
  ghost predicate Valid(s: State) {
    Ok(s, Live(s.refs))
  }

  ghost predicate Exhausted(s: State) {
    s.free == [] && s.avail == s.limit
  }

  ghost function NextFrame(s: State): nat {
    if s.free != [] then s.free[0] else s.avail
  }

  /** unsafe_alloc_frame: the head of the free list, else the next never-used frame; zeroed. */
  ghost function Taken(s: State): State {
    var p := NextFrame(s);
    s.(avail := if s.free != [] then s.avail else s.avail + 1,
       first := if s.free != [] then At(s.free, 1) else s.first,
       free := if s.free != [] then s.free[1..] else [],
       mem := s.mem[p := ZeroFrame()], use := s.use[p := ClientFrame], client := s.client[p := Held])
  }

  /** dealloc_frame: pushed on the free list. */
  ghost function Freed(s: State, p: nat): State {
    s.(first := p, free := [p] + s.free, mem := s.mem[p := Link(s.first)],
       use := s.use[p := Free], client := s.client - {p})
  }

  /** A held zero frame becomes counter table r, still empty. */
  ghost function Tabled(s: State, r: nat, t: nat): State
    requires r < |s.refs|
  {
    s.(refs := s.refs[r := t * FRAME_SIZE], mem := s.mem[t := ZeroCounters()],
       use := s.use[t := Table(r)], client := s.client - {t})
  }

  lemma {:induction false} TakenOk(s: State, live: set<nat>)
    requires Ok(s, live) && !Exhausted(s)
    ensures Ok(Taken(s), live) && NextFrame(s) !in s.client && s.start <= NextFrame(s) < s.limit
    ensures s.first == At(s.free, 0) && (s.first == 0 <==> s.free == [])
    ensures s.free != [] ==> s.first in s.mem && s.mem[s.first] == Link(At(s.free, 1))
  {
    hide FreeListOk, PopulationOk, TablesOk, Weighs, CountOf, Members, LayoutOk;
    var p, s' := NextFrame(s), Taken(s);
    FreeListFirst(s.first, s.free, s.mem, s.use);
    TakenLayout(s);
    if s.free != [] {
      FreeListTake(s.first, s.free, s.mem, s.use, ZeroFrame(), ClientFrame);
    } else {
      FreeListFrame(s.first, s.free, s.mem, s.use, p, ZeroFrame(), ClientFrame);
    }
    HeldKeepsPopulation(s.refs, s.client, s.start, p);
    TablesFrame(s.refs, s.mem, s.use, s.client, s.start, live, s'.mem, s'.use, s'.client);
  }

  lemma TakenLayout(s: State)
    requires LayoutOk(s) && !Exhausted(s)
    requires s.free != [] ==> s.free[0] in s.use && s.use[s.free[0]].Free?
    ensures LayoutOk(Taken(s)) && NextFrame(s) !in s.client && s.start <= NextFrame(s) < s.limit && s.start > 0
    ensures NextFrame(s) in s.use <==> s.free != []
  {
  }

  lemma {:induction false} FreedOk(s: State, live: set<nat>, p: nat)
    requires Ok(s, live) && p in s.client && s.client[p].Held?
    ensures Ok(Freed(s, p), live)
  {
    hide FreeListOk, PopulationOk, TablesOk, Weighs;
    var s' := Freed(s, p);
    FreeListPut(s.first, s.free, s.mem, s.use, p);
    UncountKeepsPopulation(s.refs, s.client, s.start, p);
    TablesFrame(s.refs, s.mem, s.use, s.client, s.start, live, s'.mem, s'.use, s'.client);
  }

  lemma {:induction false} TabledOk(s: State, live: set<nat>, r: nat, t: nat)
    requires Ok(s, live) && t in s.client && s.client[t].Held?
    requires r !in live && r < |s.refs| && s.refs[r] % FRAME_SIZE == 0
    ensures Ok(Tabled(s, r, t), live + {r})
  {
    hide FreeListOk, PopulationOk, TablesOk, Weighs;
    var s' := Tabled(s, r, t);
    EmptyTable(s.refs, s.client, s.start, r, t);
    FreeListFrame(s.first, s.free, s.mem, s.use, t, ZeroCounters(), Table(r));
    UncountKeepsPopulation(s'.refs, s.client, s.start, t);
    TablesNew(s.refs, s.mem, s.use, s.client, s.start, live, r, t);
    TablesFrame(s'.refs, s'.mem, s'.use, s.client, s.start, live + {r}, s'.mem, s'.use, s'.client);
  }

  ghost function TableOf(s: State, p: nat): nat {
    if s.start <= p then (p - s.start) / COUNTERS_PER_FRAME else 0
  }

  ghost function SlotOf(s: State, p: nat): nat {
    if s.start <= p then (p - s.start) % COUNTERS_PER_FRAME else 0
  }

  /** Every client's table entry exists. */
  lemma TableInRange(s: State, live: set<nat>, p: nat)
    requires Ok(s, live) && p in s.client
    ensures s.start <= p && TableOf(s, p) < |s.refs|
  {
    hide FreeListOk, TablesOk, PopulationOk;
  }

  /** The counter of p is overwritten and p's client status changes to match. */
  ghost function Recounted(s: State, p: nat, cl: Client): State
    requires TableOf(s, p) < |s.refs|
  {
    var t := s.refs[TableOf(s, p)] / FRAME_SIZE;
    if t in s.mem && s.mem[t].Counters? && |s.mem[t].cs| == COUNTERS_PER_FRAME then
      var n := Count(cl);
      s.(mem := s.mem[t := Counters(s.mem[t].cs[SlotOf(s, p) := n])], client := s.client[p := cl])
    else s
  }

  /** The population in the low bits of entry r changes by d. */
  ghost function Repopulated(s: State, r: nat, d: int): State
    requires r < |s.refs| && 0 <= s.refs[r] + d
  {
    s.(refs := s.refs[r := s.refs[r] + d])
  }

  /** Reading the counter of a client whose table exists. */
  lemma CounterRead(s: State, live: set<nat>, p: nat)
    requires Ok(s, live) && p in s.client && TableOf(s, p) in live
    ensures s.start <= p && TableOf(s, p) < |s.refs|
    ensures var t := s.refs[TableOf(s, p)] / FRAME_SIZE;
            && t in s.mem && s.mem[t].Counters? && |s.mem[t].cs| == COUNTERS_PER_FRAME
            && t in s.use && s.use[t].Table? && t !in s.client
            && s.mem[t].cs[SlotOf(s, p)] == CountOf(s.client, p)
    ensures CountOf(s.client, p) == 0 <==> s.client[p].Pending? || s.client[p].Held?
    ensures CountBound(s.client[p])
  {
    hide FreeListOk, PopulationOk;
    TableInRange(s, live, p);
    var r := TableOf(s, p);
    assert TableAt(s.refs, s.mem, s.use, s.client, s.start, r);
    assert p == s.start + r * COUNTERS_PER_FRAME + SlotOf(s, p);
  }

  /** A counted frame's table exists. */
  lemma CountedHasTable(s: State, p: nat)
    requires Valid(s) && p in s.client && !s.client[p].Held?
    ensures TableOf(s, p) < |s.refs| && TableOf(s, p) in Live(s.refs)
    ensures s.refs[TableOf(s, p)] % FRAME_SIZE != 0
  {
    hide FreeListOk, TablesOk;
    TableInRange(s, Live(s.refs), p);
    assert p in Members(s.client, s.start, TableOf(s, p));
  }

  /** First references: the counter goes from zero to one and the population grows. */
  lemma FirstReferenceOk(s: State, live: set<nat>, p: nat)
    requires Ok(s, live) && p in s.client && s.client[p].Held?
    requires live == Live(s.refs) + {TableOf(s, p)}
    ensures TableOf(s, p) < |s.refs|
    ensures Valid(Repopulated(Recounted(s, p, Counted(1)), TableOf(s, p), 1))
  {
    hide FreeListOk, PopulationOk, TablesOk, Weighs, CountOf;
    CounterRead(s, live, p);
    var r := TableOf(s, p);
    var c' := s.client[p := Counted(1)];
    RecountFrame(s, live, p, Counted(1));
    var s1 := Recounted(s, p, Counted(1));
    GainPopulation(s.refs, s.client, s.start, p);
    TablesLow(s.refs, s1.mem, s.use, c', s.start, live, r, s.refs[r] + 1);
    assert Live(s.refs[r := s.refs[r] + 1]) == live;
  }

  lemma GainPopulation(refs: seq<nat>, c: Clients, start: nat, p: nat)
    requires PopulationOk(refs, c, start) && start <= p && p in c && c[p].Held?
    requires (p - start) / COUNTERS_PER_FRAME < |refs|
    ensures var r := (p - start) / COUNTERS_PER_FRAME;
            && (refs[r] + 1) % FRAME_SIZE == refs[r] % FRAME_SIZE + 1
            && (refs[r] + 1) / FRAME_SIZE == refs[r] / FRAME_SIZE
            && PopulationOk(refs[r := refs[r] + 1], c[p := Counted(1)], start)
  {
    var r, d := (p - start) / COUNTERS_PER_FRAME, c[p := Counted(1)];
    MembersBound(c, start, r);
    forall q | 0 <= q < |refs|
      ensures |Members(d, start, q)| == |Members(c, start, q)| + (if q == r then 1 else 0)
    {
      MembersGain(c, d, start, q, p);
    }
  }

  /** Rewriting a counter together with its client keeps everything but the population. */
  lemma RecountFrame(s: State, live: set<nat>, p: nat, cl: Client)
    requires Ok(s, live) && p in s.client && TableOf(s, p) in live && CountBound(cl)
    ensures TableOf(s, p) < |s.refs|
    ensures var s1 := Recounted(s, p, cl);
            && LayoutOk(s1)
            && s1.client == s.client[p := cl]
            && FreeListOk(s1.first, s1.free, s1.mem, s1.use)
            && TablesOk(s1.refs, s1.mem, s1.use, s1.client, s1.start, live)
  {
    hide FreeListOk, PopulationOk, TablesOk, Weighs;
    CounterRead(s, live, p);
    var t := s.refs[TableOf(s, p)] / FRAME_SIZE;
    var n := Count(cl);
    var c' := s.client[p := cl];
    assert forall f: nat :: f != p ==> CountOf(c', f) == CountOf(s.client, f);
    TablesCount(s.refs, s.mem, s.use, s.client, s.start, live, p, n, c');
    var fr := Counters(s.mem[t].cs[SlotOf(s, p) := n]);
    FreeListFrame(s.first, s.free, s.mem, s.use, t, fr, s.use[t]);
    assert s.use[t := s.use[t]] == s.use;
  }

  /** A change of count that keeps the frame weighing on its table. */
  lemma RecountOk(s: State, p: nat, cl: Client)
    requires Valid(s) && p in s.client && !s.client[p].Held? && !cl.Held? && CountBound(cl)
    ensures TableOf(s, p) < |s.refs|
    ensures Valid(Recounted(s, p, cl))
  {
    hide FreeListOk, TablesOk;
    CountedHasTable(s, p);
    RecountFrame(s, Live(s.refs), p, cl);
    forall r | 0 <= r < |s.refs| ensures s.refs[r] % FRAME_SIZE == |Members(s.client[p := cl], s.start, r)| {
      MembersSame(s.client, s.client[p := cl], s.start, r);
    }
  }

  /** The end of decref: the frame is freed, its table loses a member, and an empty table is freed. */
  ghost function Released(s: State, p: nat): State
    requires TableOf(s, p) < |s.refs| && 0 < s.refs[TableOf(s, p)]
  {
    var r := TableOf(s, p);
    var s1 := Repopulated(Freed(s, p), r, -1);
    if s1.refs[r] % FRAME_SIZE == 0 then Freed(s1, s1.refs[r] / FRAME_SIZE) else s1
  }

  lemma LosePopulation(refs: seq<nat>, c: Clients, start: nat, p: nat)
    requires PopulationOk(refs, c, start) && start <= p && p in c && c[p].Pending?
    requires (p - start) / COUNTERS_PER_FRAME < |refs|
    ensures var r := (p - start) / COUNTERS_PER_FRAME;
            && refs[r] % FRAME_SIZE != 0
            && (refs[r] - 1) % FRAME_SIZE == refs[r] % FRAME_SIZE - 1
            && (refs[r] - 1) / FRAME_SIZE == refs[r] / FRAME_SIZE
            && PopulationOk(refs[r := refs[r] - 1], c[p := Held], start)
  {
    var r, d := (p - start) / COUNTERS_PER_FRAME, c[p := Held];
    assert p in Members(c, start, r);
    forall q | 0 <= q < |refs|
      ensures |Members(c, start, q)| == |Members(d, start, q)| + (if q == r then 1 else 0)
    {
      MembersGain(d, c, start, q, p);
    }
  }

  /** The first part: the population no longer counts p, whose frame is still there. */
  ghost function Depopulated(s: State, p: nat): State
    requires TableOf(s, p) < |s.refs| && s.refs[TableOf(s, p)] > 0
  {
    Repopulated(s, TableOf(s, p), -1).(client := s.client[p := Held])
  }

  lemma DepopulatedOk(s: State, p: nat)
    requires Valid(s) && p in s.client && s.client[p].Pending?
    ensures s.start <= p && TableOf(s, p) < |s.refs| && s.refs[TableOf(s, p)] % FRAME_SIZE != 0
    ensures Ok(Depopulated(s, p), Live(s.refs))
  {
    hide FreeListOk, PopulationOk, TablesOk, Weighs, CountOf;
    CountedHasTable(s, p);
    var r, live := TableOf(s, p), Live(s.refs);
    CounterRead(s, live, p);
    LosePopulation(s.refs, s.client, s.start, p);
    var c' := s.client[p := Held];
    PendingCountsNothing(s.client, p);
    TablesFrame(s.refs, s.mem, s.use, s.client, s.start, live, s.mem, s.use, c');
    TablesLow(s.refs, s.mem, s.use, c', s.start, live, r, s.refs[r] - 1);
    assert LayoutOk(Depopulated(s, p)) by {
      assert forall f :: f in c' ==> f in s.client && CountBound(c'[f]);
    }
  }

  lemma ReleasedOk(s: State, p: nat)
    requires Valid(s) && p in s.client && s.client[p].Pending?
    ensures s.start <= p && TableOf(s, p) < |s.refs| && s.refs[TableOf(s, p)] % FRAME_SIZE != 0
    ensures Valid(Released(s, p))
    ensures Released(s, p).client == s.client - {p}
    ensures forall f :: f in s.client && f != p ==> f in Released(s, p).mem && Released(s, p).mem[f] == s.mem[f]
  {
    hide FreeListOk, PopulationOk, TablesOk, Weighs, CountOf;
    DepopulatedOk(s, p);
    var r, live := TableOf(s, p), Live(s.refs);
    FreedOk(Depopulated(s, p), live, p);
    var s1 := Freed(Depopulated(s, p), p);
    assert s1 == Repopulated(Freed(s, p), r, -1);
    if s1.refs[r] % FRAME_SIZE == 0 {
      assert Live(s1.refs) == live - {r};
      EmptyTableFreed(s1, live, r);
    } else {
      assert Live(s1.refs) == live;
    }
  }

  lemma PendingCountsNothing(c: Clients, p: nat)
    requires p in c && c[p].Pending?
    ensures forall f: nat :: CountOf(c[p := Held], f) == CountOf(c, f)
  {
  }

  lemma EmptyTableFreed(s: State, live: set<nat>, r: nat)
    requires Ok(s, live) && r in live
    ensures r < |s.refs|
    ensures var t := s.refs[r] / FRAME_SIZE;
            t !in s.client && Ok(Freed(s, t), live - {r}) && Freed(s, t).client == s.client
  {
    hide FreeListOk, PopulationOk;
    assert TableAt(s.refs, s.mem, s.use, s.client, s.start, r);
    var t := s.refs[r] / FRAME_SIZE;
    TablesDrop(s.refs, s.mem, s.use, s.client, s.start, live, r, Link(s.first));
    FreeListPut(s.first, s.free, s.mem, s.use, t);
    assert s.client - {t} == s.client;
  }

  // ---------- the allocator ----------

  /** Clients and the content of their frames, except possibly p, are as before. */
  ghost predicate KeepsFrames(s: State, s': State) {
    forall f :: f in s.client && f in s.mem ==> f in s'.mem && s'.mem[f] == s.mem[f]
  }

  class Allocator {
    const start: nat
    const limit: nat
    const refs: array<nat>
    var avail: nat
    var firstFree: nat
    var mem: Memory

    ghost var free: seq<nat>
    ghost var use: Usages
    ghost var client: Clients

    ghost function Snap(): State
      reads this, refs
    {
      State(start, limit, refs[..], avail, firstFree, mem, free, use, client)
    }

    /** Why a run may end: no frame is left, or a frame has as many references as its counter can hold. */
    ghost predicate Stuck()
      reads this, refs
    {
      Exhausted(Snap()) || exists p :: p in client && client[p] == Counted(0xffff)
    }

    constructor (start: nat, size: nat)
      requires 0 < start && 0 < size && start + size <= 0x10_0000
      ensures Valid(Snap()) && fresh(refs)
      ensures this.start == start && limit == start + size && client == map[] && refs.Length == (size - 1) / 2048 + 1
    {
      this.start := start;
      this.limit := start + size;
      refs := new nat[(size - 1) / COUNTERS_PER_FRAME + 1](_ => 0);
      avail := start;
      firstFree := 0;
      mem := map[];
      free := [];
      use := map[];
      client := map[];
    }

    method UnsafeAllocFrame() returns (r: Outcome<nat>)
      requires Valid(Snap())
      modifies this
      ensures r.Panicked? <==> Exhausted(old(Snap()))
      ensures r.Panicked? ==> Snap() == old(Snap())
      ensures r.Running? ==>
        r.value == NextFrame(old(Snap())) && Snap() == Taken(old(Snap())) && Valid(Snap())
    {
      hide Ok;
      FreeListHead(Snap());
      var p;
      if firstFree != 0 {
        p := firstFree;
        firstFree := mem[p].next;
        free := free[1..];
      } else {
        if avail == limit {
          return Panicked;
        }
        p := avail;
        avail := avail + 1;
      }
      TakenOk(old(Snap()), Live(old(Snap()).refs));
      mem := mem[p := ZeroFrame()];
      use := use[p := ClientFrame];
      client := client[p := Held];
      return Running(p);
    }

    method DeallocFrame(p: nat)
      modifies this
      ensures Snap() == Freed(old(Snap()), p)
    {
      mem := mem[p := Link(firstFree)];
      firstFree := p;
      free := [p] + free;
      use := use[p := Free];
      client := client - {p};
    }

    /** The first half of incref: makes sure the counter table of entry r exists. */
    method EnsureTable(r: nat) returns (o: Outcome<()>)
      requires Valid(Snap()) && r < refs.Length
      modifies this, refs
      ensures o.Panicked? ==> Stuck()
      ensures o.Running? ==> Ok(Snap(), old(Live(refs[..])) + {r}) && Live(refs[..]) == old(Live(refs[..]))
      ensures o.Running? ==> client == old(client) && KeepsFrames(old(Snap()), Snap())
    {
      hide Ok;
      if refs[r] % FRAME_SIZE == 0 {
        ghost var s := Snap();
        var t :- UnsafeAllocFrame();
        TakenOk(s, Live(s.refs));
        ghost var s1 := Snap();
        refs[r] := t * FRAME_SIZE;
        mem := mem[t := ZeroCounters()];
        use := use[t := Table(r)];
        client := client - {t};
        assert Snap() == Tabled(s1, r, t);
        TabledOk(s1, Live(s1.refs), r, t);
      } else {
        assert Live(refs[..]) + {r} == Live(refs[..]);
      }
      return Running(());
    }

    /** Adds a reference; the first one gives an uncounted frame its counter, and its table if needed.
        The 16-bit counter must not wrap: the model ends the run there. */
    method IncRef(p: nat) returns (r: Outcome<()>)
      requires Valid(Snap())
      requires p in client && (client[p].Held? || client[p].Counted?)
      modifies this, refs
      ensures r.Panicked? ==> Stuck()
      ensures r.Running? ==> Valid(Snap())
      ensures r.Running? ==> client == old(client)[p := Counted(CountOf(old(client), p) + 1)]
      ensures r.Running? ==> KeepsFrames(old(Snap()), Snap())
    {
      hide Ok;
      TableInRange(Snap(), Live(refs[..]), p);
      var index := p - start;
      var ridx := index / COUNTERS_PER_FRAME;
      var rofs := index % COUNTERS_PER_FRAME;
      ghost var live := Live(refs[..]) + {ridx};
      var _ :- EnsureTable(ridx);
      ghost var s := Snap();
      CounterRead(s, live, p);
      var rtb := refs[ridx] / FRAME_SIZE;
      var was := mem[rtb].cs[rofs];
      if was == 0xffff {
        return Panicked;
      }
      mem := mem[rtb := Counters(mem[rtb].cs[rofs := (was + 1) % 0x1_0000])];
      client := client[p := Counted(was + 1)];
      assert Snap() == Recounted(s, p, Counted(was + 1));
      if was == 0 {
        FirstReferenceOk(s, live, p);
        refs[ridx] := refs[ridx] + 1;
        assert Snap() == Repopulated(Recounted(s, p, Counted(1)), ridx, 1);
      } else {
        CountedHasTable(old(Snap()), p);
        assert live == Live(refs[..]);
        RecountOk(s, p, Counted(was + 1));
      }
      return Running(());
    }

    method AllocFrame() returns (r: Outcome<nat>)
      requires Valid(Snap())
      modifies this, refs
      ensures r.Panicked? ==> Stuck()
      ensures r.Running? ==> Valid(Snap()) && r.value !in old(client)
      ensures r.Running? ==> client == old(client)[r.value := Counted(1)]
      ensures r.Running? ==> r.value in mem && mem[r.value] == ZeroFrame()
      ensures r.Running? ==> KeepsFrames(old(Snap()), Snap())
    {
      hide Ok;
      TakenKeeps(Snap());
      var p :- UnsafeAllocFrame();
      var _ :- IncRef(p);
      return Running(p);
    }

    /** The kernel keeps a frame it has counted once. */
    ghost method Pin(p: nat)
      requires Valid(Snap()) && p in client && client[p] == Counted(1)
      modifies this
      ensures Valid(Snap()) && client == old(client)[p := Pinned] && mem == old(mem)
    {
      hide Ok;
      PinnedOk(Snap(), p);
      client := client[p := Pinned];
    }

    /** The first half of decref: lowers the counter and says whether it reached zero. */
    method Decrement(p: nat) returns (zero: bool)
      requires Valid(Snap()) && p in client && client[p].Counted?
      modifies this
      ensures Valid(Snap())
      ensures zero <==> old(client[p].n) == 1
      ensures client == old(client)[p := if zero then Pending else Counted(old(client[p].n) - 1)]
      ensures KeepsFrames(old(Snap()), Snap())
    {
      hide Ok;
      CountedHasTable(Snap(), p);
      CounterRead(Snap(), Live(refs[..]), p);
      var index := p - start;
      var ridx := index / COUNTERS_PER_FRAME;
      var rofs := index % COUNTERS_PER_FRAME;
      var rent := refs[ridx];
      assert rent % FRAME_SIZE != 0;
      var rtb := rent / FRAME_SIZE;
      var val := (mem[rtb].cs[rofs] - 1) % 0x1_0000;
      ghost var cl := if val == 0 then Pending else Counted(val);
      RecountOk(Snap(), p, cl);
      mem := mem[rtb := Counters(mem[rtb].cs[rofs := val])];
      client := client[p := cl];
      assert Snap() == Recounted(old(Snap()), p, cl);
      return val == 0;
    }

    /** The second half of decref, after the destroy callback: frees the frame and maybe its table. */
    method Release(p: nat)
      requires Valid(Snap()) && p in client && client[p].Pending?
      modifies this, refs
      ensures Valid(Snap()) && client == old(client) - {p}
      ensures KeepsFrames(old(Snap()).(client := client), Snap())
    {
      hide Ok;
      ReleasedOk(Snap(), p);
      var ridx := (p - start) / COUNTERS_PER_FRAME;
      DeallocFrame(p);
      refs[ridx] := refs[ridx] - 1;
      var rent := refs[ridx];
      assert Snap() == Repopulated(Freed(old(Snap()), p), ridx, -1);
      if rent % FRAME_SIZE == 0 {
        DeallocFrame(rent / FRAME_SIZE);
      }
      assert Snap() == Released(old(Snap()), p);
    }

    /** A client stores one word into a frame it owns. */
    method WriteWord(p: nat, i: nat, w: Word)
      requires Valid(Snap()) && p in client && p in mem
      requires mem[p].Words? && i < |mem[p].ws|
      modifies this
      ensures Valid(Snap()) && client == old(client)
      ensures mem == old(mem)[p := Words(old(mem)[p].ws[i := w])]
    {
      hide Ok;
      ClientWriteOk(Snap(), p, Words(mem[p].ws[i := w]));
      mem := mem[p := Words(mem[p].ws[i := w])];
    }

    /** A client copies a whole frame onto one it owns. */
    method WriteFrame(p: nat, fr: Frame)
      requires Valid(Snap()) && p in client
      modifies this
      ensures Valid(Snap()) && client == old(client) && mem == old(mem)[p := fr]
    {
      hide Ok;
      ClientWriteOk(Snap(), p, fr);
      mem := mem[p := fr];
    }

    /** decref with the empty callback destroy_pg. */
    method DecRef(p: nat)
      requires Valid(Snap()) && p in client && client[p].Counted?
      modifies this, refs
      ensures Valid(Snap())
      ensures client ==
        if old(client[p].n) == 1 then old(client) - {p} else old(client)[p := Counted(old(client[p].n) - 1)]
      ensures KeepsFrames(old(Snap()).(client := client), Snap())
    {
      hide Ok;
      var zero := Decrement(p);
      if zero {
        Release(p);
      }
    }
  }

  /** What clients store in their frames is no concern of the allocator. */
  lemma ClientWriteOk(s: State, p: nat, fr: Frame)
    requires Valid(s) && p in s.client
    ensures Valid(s.(mem := s.mem[p := fr]))
  {
    hide FreeListOk, PopulationOk, TablesOk;
    FreeListFrame(s.first, s.free, s.mem, s.use, p, fr, ClientFrame);
    assert s.use[p := ClientFrame] == s.use;
    TablesFrame(s.refs, s.mem, s.use, s.client, s.start, Live(s.refs), s.mem[p := fr], s.use, s.client);
  }

  lemma PinnedOk(s: State, p: nat)
    requires Valid(s) && p in s.client && s.client[p] == Counted(1)
    ensures Valid(s.(client := s.client[p := Pinned]))
  {
    hide FreeListOk, TablesOk;
    var c := s.client[p := Pinned];
    assert forall f: nat :: CountOf(c, f) == CountOf(s.client, f);
    TablesFrame(s.refs, s.mem, s.use, s.client, s.start, Live(s.refs), s.mem, s.use, c);
    forall r | 0 <= r < |s.refs| ensures s.refs[r] % FRAME_SIZE == |Members(c, s.start, r)| {
      MembersSame(s.client, c, s.start, r);
    }
  }

  lemma TakenKeeps(s: State)
    requires Valid(s)
    ensures !Exhausted(s) ==> NextFrame(s) !in s.client
  {
    if !Exhausted(s) {
      TakenOk(s, Live(s.refs));
    }
  }

  lemma FreeListHead(s: State)
    requires Valid(s)
    ensures LayoutOk(s)
    ensures s.first == At(s.free, 0) && (s.first == 0 <==> s.free == [])
    ensures s.free != [] ==> s.first in s.mem && s.mem[s.first] == Link(At(s.free, 1))
  {
    FreeListFirst(s.first, s.free, s.mem, s.use);
  }

  // ---------- what the invariant means ----------

  /** How many of the counters are not zero. */
  ghost function NonZeros(cs: seq<nat>): nat {
    if cs == [] then 0 else NonZeros(cs[..|cs| - 1]) + (if cs[|cs| - 1] != 0 then 1 else 0)
  }

  ghost predicate NothingPending(c: Clients) {
    forall f :: f in c ==> !c[f].Pending?
  }

  /** Between top-level calls the low 12 bits of an entry are the number of non-zero counters in its
      table, which exists exactly if there is one; they never reach the address in the upper bits. */
  lemma TwoLevelCounters(s: State, r: nat)
    requires Valid(s) && NothingPending(s.client) && r < |s.refs|
    ensures s.refs[r] % 0x1000 <= 2048
    ensures s.refs[r] % 0x1000 != 0 ==>
      var t := s.refs[r] / 0x1000;
      && t in s.use && s.use[t] == Table(r) && t in s.mem && s.mem[t].Counters?
      && |s.mem[t].cs| == 2048 && s.refs[r] % 0x1000 == NonZeros(s.mem[t].cs)
    ensures s.refs[r] % 0x1000 == 0 ==> forall f :: f in s.use ==> s.use[f] != Table(r)
  {
    hide FreeListOk;
    MembersBound(s.client, s.start, r);
    if s.refs[r] % FRAME_SIZE != 0 {
      assert r in Live(s.refs);
      assert TableAt(s.refs, s.mem, s.use, s.client, s.start, r);
      var t := s.refs[r] / FRAME_SIZE;
      NonZeroMembers(s, r, s.mem[t].cs, COUNTERS_PER_FRAME);
      assert s.mem[t].cs[..COUNTERS_PER_FRAME] == s.mem[t].cs;
      assert Members(s.client, s.start, r) == MembersBelow(s.client, s.start, r, COUNTERS_PER_FRAME);
    }
  }

  ghost function MembersBelow(c: Clients, start: nat, r: nat, n: nat): set<nat> {
    set f | f in c && Weighs(c, f) && start + r * COUNTERS_PER_FRAME <= f < start + r * COUNTERS_PER_FRAME + n
  }

  lemma {:induction false} NonZeroMembers(s: State, r: nat, cs: seq<nat>, n: nat)
    requires LayoutOk(s) && NothingPending(s.client) && n <= |cs| == COUNTERS_PER_FRAME
    requires forall k :: 0 <= k < COUNTERS_PER_FRAME ==>
        cs[k] == CountOf(s.client, s.start + r * COUNTERS_PER_FRAME + k)
    ensures |MembersBelow(s.client, s.start, r, n)| == NonZeros(cs[..n])
  {
    if n == 0 {
      assert MembersBelow(s.client, s.start, r, 0) == {};
    } else {
      NonZeroMembers(s, r, cs, n - 1);
      hide Weighs, NothingPending, CountBound;
      assert cs[..n][..n - 1] == cs[..n - 1];
      WeighsCounts(s, s.start + r * COUNTERS_PER_FRAME + (n - 1));
      OneMoreMember(s.client, s.start, r, n - 1);
    }
  }

  lemma WeighsCounts(s: State, f: nat)
    requires LayoutOk(s) && NothingPending(s.client)
    ensures Weighs(s.client, f) && f in s.client <==> CountOf(s.client, f) != 0
  {
    assert f in s.client ==> CountBound(s.client[f]);
  }

  lemma OneMoreMember(c: Clients, start: nat, r: nat, n: nat)
    ensures var f := start + r * COUNTERS_PER_FRAME + n;
            |MembersBelow(c, start, r, n + 1)|
              == |MembersBelow(c, start, r, n)| + (if Weighs(c, f) && f in c then 1 else 0)
  {
    hide Weighs;
    var f := start + r * COUNTERS_PER_FRAME + n;
    var below := MembersBelow(c, start, r, n);
    assert MembersBelow(c, start, r, n + 1) == if Weighs(c, f) && f in c then below + {f} else below;
  }

  /** The counter the hardware would read for a frame is its client's count. */
  lemma CounterOf(s: State, p: nat)
    requires Valid(s) && p in s.client && !s.client[p].Held?
    ensures s.start <= p && (p - s.start) / 2048 < |s.refs|
    ensures var t := s.refs[(p - s.start) / 2048] / 0x1000;
            t in s.mem && s.mem[t].Counters? && (p - s.start) % 2048 < |s.mem[t].cs| &&
                s.mem[t].cs[(p - s.start) % 2048] == CountOf(s.client, p)
  {
    hide Ok;
    CountedHasTable(s, p);
    CounterRead(s, Live(s.refs), p);
  }

  /** The frames reached by following n links from f. */
  ghost function Chain(mem: Memory, f: nat, n: nat): seq<nat>
    decreases n
  {
    if n == 0 || f == 0 || f !in mem || !mem[f].Link? then [] else [f] + Chain(mem, mem[f].next, n - 1)
  }

  /** Every frame of the range is in exactly one place: never used, on the free list once, a counter
      table, or with a client; and the links in memory spell out the free list. */
  lemma Partition(s: State)
    requires Valid(s)
    ensures forall f :: s.start <= f < s.limit ==>
      var places := (if f >= s.avail then 1 else 0) + (if f in s.free then 1 else 0)
        + (if f in s.use && s.use[f].Table? then 1 else 0) + (if f in s.client then 1 else 0);
      places == 1
    ensures forall i, j :: 0 <= i < j < |s.free| ==> s.free[i] != s.free[j]
    ensures Chain(s.mem, s.first, |s.free| + 1) == s.free
  {
    hide PopulationOk, TablesOk;
    forall f | s.start <= f < s.limit && f in s.free ensures f in s.use && s.use[f].Free? {
      var i :| 0 <= i < |s.free| && s.free[i] == f;
      assert LinkAt(s.free, s.mem, s.use, i);
    }
    ChainFrom(s, 0);
    assert s.free[0..] == s.free;
  }

  lemma {:induction false} ChainFrom(s: State, i: nat)
    requires FreeListOk(s.first, s.free, s.mem, s.use) && i <= |s.free|
    ensures Chain(s.mem, At(s.free, i), |s.free| - i + 1) == s.free[i..]
    decreases |s.free| - i
  {
    if i < |s.free| {
      assert LinkAt(s.free, s.mem, s.use, i);
      ChainFrom(s, i + 1);
      assert s.free[i..] == [s.free[i]] + s.free[i + 1..];
    }
  }
}
