/**
 * ReusableBarrier over the blocking semaphores of Scheduler (kernel/barrier.h, kernel/semaphore.h): each
 * step of the scheduler is no step, one or two steps of the barrier on semaphore values. A thread that is
 * let in by up, or by the handler of down, has made its down although it does not run yet.
 */
module BarrierSemaphores {
  import B = ReusableBarrier
  import opened Scheduler
  import opened SchedulerSteps
  import opened SchedulerFrames
  import opened SchedulerFacts

  /** The two semaphores of one barrier. */
  const MUT: Id := 1
  const SEM: Id := 2

  datatype CState = CState(s: State, b: B.State)

  datatype CStep =
    | Sched(st: Step)
    | Local(c: Core, a: B.Step) // entering sync, or updating count, by the thread that runs on c

  ghost predicate Ours(x: Id) {
    x == MUT || x == SEM
  }

  /** Thread t is at a down of semaphore x in sync. */
  ghost predicate AtDown(b: B.State, t: Tid, x: Id) {
    t in b.pc && if x == MUT then b.pc[t].Entering? else b.pc[t].Waiting?
  }

  /** Thread t is at an up of semaphore x in sync. */
  ghost predicate AtUp(b: B.State, t: Tid, x: Id) {
    t in b.pc &&
    match b.pc[t]
    case Counted(last) => x == if last then SEM else MUT
    case Discounted(last) => x == if last then MUT else SEM
    case _ => false
  }

  /** The semaphores of the barrier are used as sync uses them, and by nobody else. */
  ghost predicate CEnabled(p: CState, a: CStep) {
    match a
    case Sched(st) =>
      && Enabled(p.s, st)
      && ((st.DownNow? || st.DownBlock?) && Ours(st.x) ==> st.c in p.s.active && AtDown(p.b, p.s.active[st.c], st.x))
      && (st.Up? && Ours(st.x) ==> st.c in p.s.active && AtUp(p.b, p.s.active[st.c], st.x))
    case Local(c, a) =>
      && Running(p.s, c) && a.t == p.s.active[c] && (a.Enter? || a.Count? || a.Discount?) && B.Enabled(p.b, a)
  }

  ghost function DownOf(t: Tid, x: Id): B.Step {
    if x == MUT then B.DownMut(t) else B.DownSem(t)
  }

  ghost function UpOf(b: B.State, t: Tid): B.Step {
    if t in b.pc && b.pc[t].Counted? then B.UpCounted(t) else B.UpDiscounted(t)
  }

  /** The steps of the barrier that a step of the scheduler amounts to. */
  ghost function Meaning(p: CState, st: Step): seq<B.Step>
    requires Enabled(p.s, st)
  {
    match st
    case DownNow(c, x) => if Ours(x) && c in p.s.active then [DownOf(p.s.active[c], x)] else []
    case Up(c, x) =>
      if !Ours(x) then []
      else if p.s.sems[x].queue == [] then [UpOf(p.b, p.s.active[c])]
      else [UpOf(p.b, p.s.active[c]), DownOf(p.s.sems[x].queue[0], x)]
    case HandleDown(c) =>
      var x := p.s.stage[c].act.sem;
      if Ours(x) && p.s.sems[x].count > 0 then [DownOf(p.s.stage[c].me, x)] else []
    case _ => []
  }

  /** The steps can be made one after the other, and lead from b to b'. */
  ghost predicate Leads(b: B.State, steps: seq<B.Step>, b': B.State)
    decreases steps
  {
    if steps == [] then b' == b
    else B.Enabled(b, steps[0]) && Leads(B.Do(b, steps[0]), steps[1..], b')
  }

  /** The barrier's values are those of the semaphores; whoever waits for a grant is at that down. */
  ghost predicate Related(p: CState) {
    && MUT in p.s.sems && SEM in p.s.sems
    && p.b.mut == p.s.sems[MUT].count && p.b.sem == p.s.sems[SEM].count
    && forall t :: t in p.s.asking && Ours(p.s.asking[t]) ==> AtDown(p.b, t, p.s.asking[t])
  }

  // ---------- single steps of the barrier ----------

  /** A down on a value that is not zero. */
  lemma DownMade(b: B.State, t: Tid, x: Id)
    requires Ours(x) && AtDown(b, t, x) && (if x == MUT then b.mut else b.sem) > 0
    ensures B.Enabled(b, DownOf(t, x))
    ensures var b' := B.Do(b, DownOf(t, x));
            && (if x == MUT then b'.mut == b.mut - 1 && b'.sem == b.sem else b'.mut == b.mut && b'.sem == b.sem - 1)
            && OthersKept(b, b', t)
  {
  }

  lemma UpMade(b: B.State, t: Tid, x: Id)
    requires Ours(x) && AtUp(b, t, x)
    ensures B.Enabled(b, UpOf(b, t))
    ensures var b' := B.Do(b, UpOf(b, t));
            && (if x == MUT then b'.mut == b.mut + 1 && b'.sem == b.sem else b'.mut == b.mut && b'.sem == b.sem + 1)
            && OthersKept(b, b', t)
  {
  }

  /** All threads but t are where they were. */
  ghost predicate OthersKept(b: B.State, b': B.State, t: Tid) {
    forall u :: u != t ==> (u in b'.pc <==> u in b.pc) && (u in b.pc ==> b'.pc[u] == b.pc[u])
  }

  // ---------- single steps of the scheduler ----------

  lemma ActiveNotAsking(s: State, c: Core)
    requires Inv(s) && Running(s, c)
    ensures s.active[c] !in s.asking
  {
    hide ThreadOk, ContextOk, SemOk, CondOk, CarryOk, AskOk, QueueOk, IsIdle, ActionOk;
    assert CoreOk(s, c);
  }

  /** Queued threads wait for a grant of that semaphore, whose count is zero; and the caller in a handler does. */
  lemma QueueAsks(s: State, x: Id)
    requires Inv(s) && x in s.sems && s.sems[x].queue != []
    ensures s.sems[x].count == 0 && s.sems[x].queue[0] in s.asking && s.asking[s.sems[x].queue[0]] == x
  {
    hide CoreOk, ThreadOk, ContextOk, CondOk, CarryOk, AskOk, QueueOk, IsIdle;
    assert SemOk(s, x);
  }

  lemma CallerAsks(s: State, c: Core)
    requires Inv(s) && HandlesDown(s, c)
    ensures s.stage[c].me in s.asking && s.asking[s.stage[c].me] == s.stage[c].act.sem
  {
    hide ThreadOk, ContextOk, SemOk, CondOk, CarryOk, AskOk, QueueOk, IsIdle;
    assert CoreOk(s, c);
  }

  /** Only semaphore x changes its count, to n, and the threads in gone stop waiting for a grant. */
  ghost predicate SemStep(s: State, s': State, x: Id, n: nat, gone: set<Tid>) {
    && x in s.sems && s'.sems.Keys == s.sems.Keys && s'.sems[x].count == n
    && (forall y :: y in s.sems && y != x ==> s'.sems[y] == s.sems[y])
    && s'.asking == s.asking - gone
  }

  lemma DownNowSems(s: State, c: Core, x: Id)
    requires Enabled(s, DownNow(c, x))
    ensures SemStep(s, Do(s, DownNow(c, x)), x, s.sems[x].count - 1, {})
  {
    hide IsIdle;
    assert s.asking - {} == s.asking;
  }

  lemma UpSems(s: State, c: Core, x: Id)
    requires CanUp(s, c, x) && (s.sems[x].queue != [] ==> s.sems[x].count == 0)
    ensures
      var q := s.sems[x].queue;
      SemStep(s, DoUp(s, c, x), x, if q == [] then s.sems[x].count + 1 else 0, if q == [] then {} else {q[0]})
  {
    hide IsIdle;
    assert s.asking - {} == s.asking;
  }

  lemma HandleDownSems(s: State, c: Core)
    requires HandlesDown(s, c)
    ensures
      var x := s.stage[c].act.sem;
      if s.sems[x].count > 0 then SemStep(s, DoDown(s, c), x, s.sems[x].count - 1, {s.stage[c].me})
      else SemStep(s, DoDown(s, c), x, 0, {})
  {
    hide IsIdle;
    assert s.asking - {} == s.asking;
  }

  lemma DownBlockSems(s: State, c: Core, x: Id)
    requires CanUp(s, c, x)
    ensures
      var s' := DoDownBlock(s, c, x);
      && s'.asking == s.asking[s.active[c] := x] && s'.sems.Keys == s.sems.Keys
      && forall y :: y in s.sems ==> s'.sems[y].count == s.sems[y].count
  {
    hide IsIdle;
  }

  // ---------- the simulation ----------

  /** Every step of the scheduler on the barrier's semaphores is the barrier's own steps on their values,
      and every other step is none. */
  lemma Simulates(p: CState, st: Step) returns (b': B.State)
    requires Inv(p.s) && Related(p) && CEnabled(p, Sched(st))
    ensures Leads(p.b, Meaning(p, st), b') && Related(CState(Do(p.s, st), b'))
  {
    hide Inv, Enabled, Do, DoUp, DoDown, DoDownBlock, B.Do, B.Enabled, OwnStage;
    match st
    case DownNow(c, x) => b' := NowSimulated(p, c, x);
    case DownBlock(c, x) => b' := BlockSimulated(p, c, x);
    case Up(c, x) => b' := UpSimulated(p, c, x);
    case HandleDown(c) => b' := HandleSimulated(p, c);
    case _ =>
      KeysFacts(p.s);
      StepChanges(p.s, st);
      b' := p.b;
  }

  lemma NowSimulated(p: CState, c: Core, x: Id) returns (b': B.State)
    requires Inv(p.s) && Related(p) && CEnabled(p, Sched(DownNow(c, x)))
    ensures Leads(p.b, Meaning(p, DownNow(c, x)), b') && Related(CState(Do(p.s, DownNow(c, x)), b'))
  {
    hide Inv, Do, B.Do, B.Enabled, IsIdle;
    var t := p.s.active[c];
    DownNowSems(p.s, c, x);
    ActiveNotAsking(p.s, c);
    b' := p.b;
    if Ours(x) {
      DownMade(p.b, t, x);
      b' := B.Do(p.b, DownOf(t, x));
      OneStep(p.b, DownOf(t, x), b');
    }
  }

  lemma BlockSimulated(p: CState, c: Core, x: Id) returns (b': B.State)
    requires Inv(p.s) && Related(p) && CEnabled(p, Sched(DownBlock(c, x)))
    ensures Leads(p.b, Meaning(p, DownBlock(c, x)), b') && Related(CState(Do(p.s, DownBlock(c, x)), b'))
  {
    hide Inv, DoDownBlock, IsIdle;
    DownBlockSems(p.s, c, x);
    b' := p.b;
  }

  lemma UpSimulated(p: CState, c: Core, x: Id) returns (b': B.State)
    requires Inv(p.s) && Related(p) && CEnabled(p, Sched(Up(c, x)))
    ensures Leads(p.b, Meaning(p, Up(c, x)), b') && Related(CState(Do(p.s, Up(c, x)), b'))
  {
    hide Inv, DoUp, B.Do, B.Enabled, IsIdle, AtUp;
    var t, q := p.s.active[c], p.s.sems[x].queue;
    ActiveNotAsking(p.s, c);
    if q != [] {
      QueueAsks(p.s, x);
    }
    UpSems(p.s, c, x);
    b' := p.b;
    if Ours(x) {
      UpMade(p.b, t, x);
      var b1 := B.Do(p.b, UpOf(p.b, t));
      b' := b1;
      OneStep(p.b, UpOf(p.b, t), b1);
      if q != [] {
        DownMade(b1, q[0], x);
        b' := B.Do(b1, DownOf(q[0], x));
        TwoSteps(p.b, UpOf(p.b, t), DownOf(q[0], x), b');
      }
    }
  }

  lemma HandleSimulated(p: CState, c: Core) returns (b': B.State)
    requires Inv(p.s) && Related(p) && CEnabled(p, Sched(HandleDown(c)))
    ensures Leads(p.b, Meaning(p, HandleDown(c)), b') && Related(CState(Do(p.s, HandleDown(c)), b'))
  {
    hide Inv, DoDown, B.Do, B.Enabled, IsIdle;
    var t, x := p.s.stage[c].me, p.s.stage[c].act.sem;
    CallerAsks(p.s, c);
    HandleDownSems(p.s, c);
    b' := p.b;
    if Ours(x) && p.s.sems[x].count > 0 {
      DownMade(p.b, t, x);
      b' := B.Do(p.b, DownOf(t, x));
      OneStep(p.b, DownOf(t, x), b');
    }
  }

  lemma OneStep(b: B.State, a: B.Step, b': B.State)
    requires B.Enabled(b, a) && b' == B.Do(b, a)
    ensures Leads(b, [a], b')
  {
    hide B.Do, B.Enabled;
    assert [a][1..] == [];
  }

  lemma TwoSteps(b: B.State, a: B.Step, a': B.Step, b': B.State)
    requires B.Enabled(b, a) && B.Enabled(B.Do(b, a), a') && b' == B.Do(B.Do(b, a), a')
    ensures Leads(b, [a, a'], b')
  {
    hide B.Do, B.Enabled;
    assert [a, a'][1..] == [a'];
    OneStep(B.Do(b, a), a', b');
  }

  // ---------- runs ----------

  ghost predicate CInitial(p: CState) {
    && Initial(p.s) && B.Initial(p.b) && MUT in p.s.sems && SEM in p.s.sems
    && p.s.sems[MUT].count == 1 && p.s.sems[SEM].count == 0
  }

  ghost predicate CNext(p: CState, a: CStep, p': CState) {
    && CEnabled(p, a)
    && match a
       case Sched(st) => p'.s == Do(p.s, st) && Leads(p.b, Meaning(p, st), p'.b)
       case Local(_, act) => p' == p.(b := B.Do(p.b, act))
  }

  ghost predicate CIsRun(ps: seq<CState>, acts: seq<CStep>) {
    |ps| == |acts| + 1 && CInitial(ps[0]) && forall i :: 0 <= i < |acts| ==> CNextAt(ps, acts, i)
  }

  ghost predicate CNextAt(ps: seq<CState>, acts: seq<CStep>, i: nat)
    requires i < |acts| && |ps| == |acts| + 1
  {
    CNext(ps[i], acts[i], ps[i + 1])
  }

  lemma {:induction false} LeadsOnce(b: B.State, steps: seq<B.Step>, x: B.State, y: B.State)
    requires Leads(b, steps, x) && Leads(b, steps, y)
    ensures x == y
    decreases steps
  {
    hide B.Do, B.Enabled;
    if steps != [] {
      LeadsOnce(B.Do(b, steps[0]), steps[1..], x, y);
    }
  }

  lemma {:induction false} LeadsKeepsInv(b: B.State, steps: seq<B.Step>, b': B.State)
    requires B.Inv(b) && Leads(b, steps, b')
    ensures B.Inv(b')
    decreases steps
  {
    hide B.Do, B.Enabled, B.Inv;
    if steps != [] {
      B.StepKeepsInv(b, steps[0]);
      LeadsKeepsInv(B.Do(b, steps[0]), steps[1..], b');
    }
  }

  lemma LocalRelated(p: CState, c: Core, a: B.Step)
    requires Inv(p.s) && Related(p) && CEnabled(p, Local(c, a))
    ensures Related(p.(b := B.Do(p.b, a)))
  {
    hide Inv;
    ActiveNotAsking(p.s, c);
  }

  /** A barrier that uses the blocking semaphores is in every run at a state of ReusableBarrier that
      satisfies its invariant, so nobody passes early and generations do not mix there either. */
  lemma {:induction false} CRunKeepsInv(ps: seq<CState>, acts: seq<CStep>, i: nat)
    requires CIsRun(ps, acts) && i < |ps|
    ensures Inv(ps[i].s) && B.Inv(ps[i].b) && Related(ps[i])
  {
    hide Inv, B.Inv, Initial, B.Initial, Related, CEnabled, Do, B.Do;
    if i == 0 {
      StartRelated(ps[0]);
    } else {
      CRunKeepsInv(ps, acts, i - 1);
      assert CNextAt(ps, acts, i - 1);
      CNextKeepsInv(ps[i - 1], acts[i - 1], ps[i]);
    }
  }

  lemma StartRelated(p: CState)
    requires CInitial(p)
    ensures Inv(p.s) && B.Inv(p.b) && Related(p)
  {
    InitialOk(p.s);
    BarrierStarts(p.b);
  }

  lemma BarrierStarts(b: B.State)
    requires B.Initial(b)
    ensures B.Inv(b)
  {
    assert B.Inside(b.pc) == {} && B.Members(b.pc) == {};
  }

  lemma CNextKeepsInv(p: CState, a: CStep, p': CState)
    requires Inv(p.s) && B.Inv(p.b) && Related(p) && CNext(p, a, p')
    ensures Inv(p'.s) && B.Inv(p'.b) && Related(p')
  {
    hide Inv, B.Inv, Related, Do, B.Do, Enabled, Leads, Meaning;
    match a
    case Sched(st) =>
      StepKeepsInv(p.s, st);
      var b' := Simulates(p, st);
      LeadsOnce(p.b, Meaning(p, st), b', p'.b);
      LeadsKeepsInv(p.b, Meaning(p, st), p'.b);
    case Local(c, act) =>
      LocalRelated(p, c, act);
      B.StepKeepsInv(p.b, act);
  }
}
