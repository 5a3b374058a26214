/**
 * The two-semaphore barrier (ReusableBarrier, kernel/barrier.h) over any number of threads, as
 * interleaved steps. A semaphore is its value: a down that is granted takes one unit, an up adds one.
 */
module ReusableBarrier {
  import opened Sets

  type Tid = nat

  /** Where a thread is inside sync; last says whether its update of count hit the bound. */
  datatype Pc =
    | Entering // before mut.down
    | InMut // holds mut, before ++count
    | Counted(last: bool) // before sem.up or mut.up
    | Waiting // before sem.down
    | InSem // holds sem, before --count
    | Discounted(last: bool) // before mut.up or sem.up

  /** Besides the fields of the barrier: arrivals and departures so far, the current generation, whether
      it is draining, and the generation of each thread that is counted. */
  datatype State = State(
    pc: map<Tid, Pc>, mut: nat, sem: nat, count: nat, limit: nat,
    arrived: nat, departed: nat, generation: nat, draining: bool, gen: map<Tid, nat>)

  ghost predicate Initial(s: State) {
    s.limit >= 1 && s == State(map[], 1, 0, 0, s.limit, 0, 0, 0, false, map[])
  }

  // ---------- the invariant ----------

  predicate Critical(p: Pc) {
    p.InMut? || p.Counted? || p.InSem? || p.Discounted?
  }

  predicate IsCounted(p: Pc) {
    p.Counted? || p.Waiting? || p.InSem?
  }

  ghost function Inside(pc: map<Tid, Pc>): set<Tid> {
    set t | t in pc && Critical(pc[t])
  }

  ghost function Members(pc: map<Tid, Pc>): set<Tid> {
    set t | t in pc && IsCounted(pc[t])
  }

  ghost predicate PcOk(s: State, t: Tid)
    requires t in s.pc
  {
    match s.pc[t]
    case Entering => true
    case InMut => !s.draining
    case Counted(last) => s.draining == last
    case Waiting => true
    case InSem => s.draining
    case Discounted(last) => s.draining == !last
  }

  ghost predicate Inv(s: State) {
    && s.limit >= 1
    // one baton: in mut, in sem, or with the one thread that may touch count
    && s.mut + s.sem + |Inside(s.pc)| == 1
    && s.count == |Members(s.pc)|
    && (forall t :: t in s.pc ==> PcOk(s, t))
    && (forall t :: t in Members(s.pc) ==> t in s.gen && s.gen[t] == s.generation)
    && (if s.draining then s.mut == 0 && 1 <= s.count <= s.limit else s.sem == 0 && s.count < s.limit)
    // generations do not mix
    && s.arrived == s.departed + s.count
    && (if s.draining then s.arrived == s.limit * (s.generation + 1) else s.departed == s.limit * s.generation)
  }

  // ---------- the steps of sync ----------

  datatype Step =
    | Enter(t: Tid) | DownMut(t: Tid) | Count(t: Tid) | UpCounted(t: Tid)
    | DownSem(t: Tid) | Discount(t: Tid) | UpDiscounted(t: Tid)

  ghost predicate Enabled(s: State, st: Step) {
    match st
    case Enter(t) => t !in s.pc
    case DownMut(t) => t in s.pc && s.pc[t].Entering? && s.mut > 0
    case Count(t) => t in s.pc && s.pc[t].InMut?
    case UpCounted(t) => t in s.pc && s.pc[t].Counted?
    case DownSem(t) => t in s.pc && s.pc[t].Waiting? && s.sem > 0
    case Discount(t) => t in s.pc && s.pc[t].InSem? && s.count > 0
    case UpDiscounted(t) => t in s.pc && s.pc[t].Discounted?
  }

  ghost function Do(s: State, st: Step): State
    requires Enabled(s, st)
  {
    match st
    case Enter(t) => s.(pc := s.pc[t := Entering])
    case DownMut(t) => s.(pc := s.pc[t := InMut], mut := s.mut - 1)
    case Count(t) =>
      var last := s.count + 1 == s.limit;
      s.(pc := s.pc[t := Counted(last)], count := s.count + 1, arrived := s.arrived + 1, draining := last,
         gen := s.gen[t := s.generation])
    case UpCounted(t) =>
      if s.pc[t].last then s.(pc := s.pc[t := Waiting], sem := s.sem + 1)
      else s.(pc := s.pc[t := Waiting], mut := s.mut + 1)
    case DownSem(t) => s.(pc := s.pc[t := InSem], sem := s.sem - 1)
    case Discount(t) =>
      var last := s.count - 1 == 0;
      s.(pc := s.pc[t := Discounted(last)], count := s.count - 1, departed := s.departed + 1, draining := !last,
         generation := if last then s.generation + 1 else s.generation)
    case UpDiscounted(t) =>
      if s.pc[t].last then s.(pc := s.pc - {t}, mut := s.mut + 1)
      else s.(pc := s.pc - {t}, sem := s.sem + 1)
  }

  lemma MoveSets(pc: map<Tid, Pc>, t: Tid, p: Pc)
    ensures var pc' := pc[t := p];
            && |Inside(pc')| == |Inside(pc)| - (if t in pc && Critical(pc[t]) then 1 else 0)
                + (if Critical(p) then 1 else 0)
            && |Members(pc')| == |Members(pc)| - (if t in pc && IsCounted(pc[t]) then 1 else 0)
                + (if IsCounted(p) then 1 else 0)
            && (forall u :: u in Members(pc') ==> u == t || u in Members(pc))
  {
    var pc' := pc[t := p];
    assert Inside(pc') - {t} == Inside(pc) - {t};
    assert Members(pc') - {t} == Members(pc) - {t};
    SwapCard(Inside(pc), Inside(pc'), t);
    SwapCard(Members(pc), Members(pc'), t);
  }

  lemma LeaveSets(pc: map<Tid, Pc>, t: Tid)
    requires t in pc && pc[t].Discounted?
    ensures |Inside(pc)| == |Inside(pc - {t})| + 1 && Members(pc - {t}) == Members(pc)
  {
    assert Inside(pc) == Inside(pc - {t}) + {t};
  }

  /** Whoever is inside is alone: two threads can not both be between a down and the matching up. */
  lemma Alone(s: State, t: Tid, u: Tid)
    requires Inv(s) && t in s.pc && u in s.pc && Critical(s.pc[t]) && Critical(s.pc[u])
    ensures t == u && s.mut == 0 && s.sem == 0
  {
    assert {t, u} <= Inside(s.pc);
    if t != u {
      SubsetCard({t, u}, Inside(s.pc));
    } else {
      SubsetCard({t}, Inside(s.pc));
    }
  }

  lemma MemberCounted(s: State, t: Tid)
    requires t in s.pc && IsCounted(s.pc[t])
    ensures |Members(s.pc)| >= 1
  {
    SubsetCard({t}, Members(s.pc));
  }

  lemma StepKeepsInv(s: State, st: Step)
    requires Inv(s) && Enabled(s, st)
    ensures Inv(Do(s, st))
  {
    match st
    case Enter(t) => MoveSets(s.pc, t, Entering);
    case DownMut(t) =>
      NobodyInside(s);
      MoveSets(s.pc, t, InMut);
    case Count(t) =>
      OthersOutside(s, t);
      MoveSets(s.pc, t, Counted(s.count + 1 == s.limit));
      Generations(s.limit, s.generation);
    case UpCounted(t) =>
      OthersOutside(s, t);
      MoveSets(s.pc, t, Waiting);
      MemberCounted(s, t);
    case DownSem(t) =>
      NobodyInside(s);
      MoveSets(s.pc, t, InSem);
    case Discount(t) =>
      OthersOutside(s, t);
      MoveSets(s.pc, t, Discounted(s.count - 1 == 0));
    case UpDiscounted(t) =>
      OthersOutside(s, t);
      LeaveSets(s.pc, t);
  }

  lemma Generations(limit: nat, g: nat)
    ensures limit * (g + 1) == limit * g + limit
  {
  }

  lemma NobodyInside(s: State)
    requires Inv(s) && s.mut + s.sem > 0
    ensures forall t :: t in s.pc ==> !Critical(s.pc[t])
  {
    forall t | t in s.pc ensures !Critical(s.pc[t]) {
      SomeoneInside(s.pc, t);
    }
  }

  lemma SomeoneInside(pc: map<Tid, Pc>, t: Tid)
    ensures t in pc && Critical(pc[t]) ==> |Inside(pc)| >= 1
  {
    if t in pc && Critical(pc[t]) {
      SubsetCard({t}, Inside(pc));
    }
  }

  lemma OthersOutside(s: State, t: Tid)
    requires Inv(s) && t in s.pc && Critical(s.pc[t])
    ensures s.mut == 0 && s.sem == 0
    ensures forall u :: u in s.pc && u != t ==> !Critical(s.pc[u])
  {
    Alone(s, t, t);
    forall u | u in s.pc && u != t ensures !Critical(s.pc[u]) {
      if Critical(s.pc[u]) {
        Alone(s, t, u);
      }
    }
  }

  // ---------- runs ----------

  ghost predicate IsRun(ss: seq<State>, sts: seq<Step>) {
    && |ss| == |sts| + 1 && Initial(ss[0])
    && forall i :: 0 <= i < |sts| ==> StepAt(ss, sts, i)
  }

  ghost predicate StepAt(ss: seq<State>, sts: seq<Step>, i: nat)
    requires i < |sts| && |ss| == |sts| + 1
  {
    Enabled(ss[i], sts[i]) && ss[i + 1] == Do(ss[i], sts[i])
  }

  lemma {:induction false} RunKeepsInv(ss: seq<State>, sts: seq<Step>, i: nat)
    requires IsRun(ss, sts) && i < |ss|
    ensures Inv(ss[i])
  {
    if i == 0 {
      assert Inside(ss[0].pc) == {} && Members(ss[0].pc) == {};
    } else {
      hide Inv;
      RunKeepsInv(ss, sts, i - 1);
      assert StepAt(ss, sts, i - 1);
      StepKeepsInv(ss[i - 1], sts[i - 1]);
    }
  }

  /** Nobody passes before limit threads of its generation have arrived, and those of the next are
      not counted before the last one has left. */
  lemma GenerationsApart(s: State, st: Step)
    requires Inv(s) && Enabled(s, st)
    ensures st.DownSem? || st.Discount? ==>
      st.t in s.gen && s.gen[st.t] == s.generation && s.arrived == s.limit * (s.generation + 1)
    ensures st.Count? ==> s.departed == s.limit * s.generation && s.arrived < s.limit * (s.generation + 1)
    ensures st.Discount? && s.count == 1 ==> s.departed + 1 == s.limit * (s.generation + 1)
  {
    Generations(s.limit, s.generation);
    if st.DownSem? || st.Discount? {
      assert st.t in Members(s.pc);
    }
    if st.Count? {
      assert PcOk(s, st.t);
    }
    if st.Discount? {
      assert PcOk(s, st.t);
    }
  }

  /** Exactly limit threads arrive and leave per generation: at each count of arrivals and departures
      the generation is known. */
  lemma ArrivalsByGeneration(s: State)
    requires Inv(s)
    ensures s.limit * s.generation <= s.departed <= s.arrived <= s.limit * (s.generation + 1)
    ensures s.departed < s.limit * (s.generation + 1)
    ensures s.draining ==> s.arrived == s.limit * (s.generation + 1)
    ensures !s.draining ==> s.departed == s.limit * s.generation
  {
    Generations(s.limit, s.generation);
  }

  /** The barrier never gets stuck: either some thread inside can take a step, or all threads inside
      wait for their generation to fill, and there are fewer than limit of them. */
  lemma NeverStuck(s: State)
    requires Inv(s) && s.pc != map[]
    ensures
      || (exists st: Step :: !st.Enter? && Enabled(s, st))
      || (s.count < s.limit && forall t :: t in s.pc ==> s.pc[t].Waiting?)
  {
    if t :| t in s.pc && Critical(s.pc[t]) {
      var st := StepOf(s, t);
      if s.pc[t].InSem? {
        MemberCounted(s, t);
      }
      assert Enabled(s, st);
    } else {
      assert Inside(s.pc) == {};
      if s.sem == 1 {
        var t :| t in Members(s.pc);
        assert Enabled(s, DownSem(t));
      } else if t :| t in s.pc && s.pc[t].Entering? {
        assert Enabled(s, DownMut(t));
      }
    }
  }

  ghost function StepOf(s: State, t: Tid): Step
    requires t in s.pc
  {
    match s.pc[t]
    case Entering => DownMut(t)
    case InMut => Count(t)
    case Counted(_) => UpCounted(t)
    case Waiting => DownSem(t)
    case InSem => Discount(t)
    case Discounted(_) => UpDiscounted(t)
  }
}
