/**
 * Barrier over the conditions of Scheduler (kernel/barrier.h, kernel/condition.h): each step of the
 * scheduler is a step of the one-shot barrier or none. Locking the mutex is possible while no thread is
 * inside notifyAll, which holds it until every waiting thread is scheduled.
 */
module BarrierConditions {
  import B = Barrier
  import opened Scheduler
  import opened SchedulerSteps
  import opened SchedulerFrames
  import opened SchedulerFacts

  /** The condition variable of one barrier. */
  const CV: Id := 1

  datatype CState = CState(s: State, b: B.State)

  datatype CStep =
    | Sched(st: Step)
    | Local(c: Core, a: B.Step) // entering sync, or looking at count under the mutex, by the thread that runs on c

  ghost predicate AtPc(b: B.State, t: Tid, p: B.Pc) {
    t in b.pc && b.pc[t] == p
  }

  /** The condition is used as sync uses it, and by nobody else. */
  ghost predicate CEnabled(p: CState, a: CStep) {
    match a
    case Sched(st) =>
      && Enabled(p.s, st)
      && (st.CallWait? && st.x == CV ==> st.c in p.s.active && AtPc(p.b, p.s.active[st.c], B.Blocking(st.e)))
      && (st.NotifyAllBegin? && st.x == CV ==> st.c in p.s.active && AtPc(p.b, p.s.active[st.c], B.Releasing))
      && !(st.NotifyOne? && st.x == CV)
    case Local(c, a) =>
      && Running(p.s, c) && a.t == p.s.active[c] && B.Enabled(p.b, a)
      && (a.Enter? || ((a.Arrive? || a.Check?) && Unlocked(p.s, CV)))
  }

  datatype Move = Stutter | Takes(a: B.Step)

  /** The step of the barrier that a step of the scheduler amounts to. */
  ghost function Meaning(p: CState, st: Step): Move
    requires Enabled(p.s, st)
  {
    match st
    case GiveUp(c) =>
      if p.s.stage[c].act.Wait? && p.s.stage[c].act.cond == CV && c in p.s.active then Takes(B.GiveUp(p.s.active[c]))
      else Stutter
    case HandleWait(c) => if HandlesWaitOn(p.s, c, CV) then Takes(B.Handle(p.s.stage[c].me)) else Stutter
    case NotifyAllBegin(c, x) => if x == CV then Takes(B.Release(p.s.active[c])) else Stutter
    case _ => Stutter
  }

  ghost predicate Leads(b: B.State, m: Move, b': B.State) {
    match m
    case Stutter => b' == b
    case Takes(a) => B.Enabled(b, a) && b' == B.Do(b, a)
  }

  /** Epochs agree. Outside notifyAll the queue holds exactly the threads that the barrier has queued, with
      their epochs; notifyAll has woken them in the barrier at once and takes them off one by one. */
  ghost predicate QueueRelated(m: CondState, b: B.State) {
    && m.epoch == b.epoch
    && (forall t :: t in m.queue ==>
          t in m.since && AtPc(b, t, if m.notifier.None? then B.Queued(m.since[t]) else B.Checking))
    && (forall t :: t in b.pc && b.pc[t].Queued? ==> t in m.queue)
  }

  /** Whoever is inside wait is there in the barrier, with the epoch it read. */
  ghost predicate WaitersRelated(s: State, b: B.State) {
    forall c, e :: WaitsAt(s, c, CV, e) ==> AtPc(b, Caller(s, c), B.Blocking(e))
  }

  ghost predicate Related(p: CState) {
    CV in p.s.conds && QueueRelated(p.s.conds[CV], p.b) && WaitersRelated(p.s, p.b)
  }

  // ---------- where threads are ----------

  lemma QueuedElsewhere(s: State, c: Core)
    requires Inv(s) && c in s.stage && CV in s.conds
    ensures c in s.active && Caller(s, c) !in s.conds[CV].queue
  {
    hide Inv, IsIdle, CondOk;
    CallerHere(s, c);
    AskFacts(s, c);
    OpenCond(s, CV);
  }

  // ---------- the threads inside wait ----------

  /** All threads but t, and those that were queued, are where they were. */
  ghost predicate OthersKept(b: B.State, b': B.State, t: Tid) {
    forall u :: u != t && u in b.pc && !b.pc[u].Queued? ==> u in b'.pc && b'.pc[u] == b.pc[u]
  }

  /** A step in which at most the caller on its core moves in the barrier, and leaves wait if it was there. */
  lemma WaitersStay(s: State, s': State, st: Step, b: B.State, b': B.State)
    requires Inv(s) && Changes(s, s', st) && WaitersRelated(s, b)
    requires st.CallWait? && st.x == CV ==> AtPc(b, s.active[st.c], B.Blocking(st.e))
    requires b' == b || (OthersKept(b, b', Caller(s, st.c)) && (s'.stage[st.c].Run? || s'.stage[st.c].Requeue?))
    ensures WaitersRelated(s', b')
  {
    hide Inv, Changes;
    forall d, e | WaitsAt(s', d, CV, e) ensures AtPc(b', Caller(s', d), B.Blocking(e)) {
      WaiterStays(s, s', st, b, b', d, e);
    }
  }

  lemma WaiterStays(s: State, s': State, st: Step, b: B.State, b': B.State, d: Core, e: nat)
    requires Inv(s) && Changes(s, s', st) && WaitersRelated(s, b) && WaitsAt(s', d, CV, e)
    requires st.CallWait? && st.x == CV ==> AtPc(b, s.active[st.c], B.Blocking(st.e))
    requires b' == b || (OthersKept(b, b', Caller(s, st.c)) && (s'.stage[st.c].Run? || s'.stage[st.c].Requeue?))
    ensures AtPc(b', Caller(s', d), B.Blocking(e))
  {
    hide Inv;
    WaitedBefore(s, s', st, d, CV, e);
    if b' != b {
      CallerHere(s, d);
      CallerHere(s, st.c);
    }
  }

  // ---------- the condition ----------

  lemma TakeKeepsQueue(s: State, c: Core, b: B.State)
    requires Inv(s) && Enabled(s, NotifyAllTake(c, CV)) && QueueRelated(s.conds[CV], b)
    ensures var s' := Do(s, NotifyAllTake(c, CV)); CV in s'.conds && QueueRelated(s'.conds[CV], b)
  {
    hide Inv, CondOk, IsIdle;
    AskFacts(s, c);
    OpenCond(s, CV);
    var m, s' := s.conds[CV], Do(s, NotifyAllTake(c, CV));
    assert s'.conds[CV] == m.(queue := m.queue[1..], since := m.since - {m.queue[0]});
    TailRelated(m, b);
  }

  lemma TailRelated(m: CondState, b: B.State)
    requires m.queue != [] && m.notifier.Some? && QueueRelated(m, b)
    requires forall j, k :: 0 <= j < k < |m.queue| ==> m.queue[j] != m.queue[k]
    ensures QueueRelated(m.(queue := m.queue[1..], since := m.since - {m.queue[0]}), b)
  {
  }

  lemma EndKeepsQueue(s: State, c: Core, b: B.State)
    requires Enabled(s, NotifyAllEnd(c, CV)) && QueueRelated(s.conds[CV], b)
    ensures var s' := Do(s, NotifyAllEnd(c, CV)); CV in s'.conds && QueueRelated(s'.conds[CV], b)
  {
    hide IsIdle;
  }

  lemma HandleKeepsQueue(s: State, c: Core, b: B.State)
    requires HandlesWaitOn(s, c, CV) && QueueRelated(s.conds[CV], b)
    requires AtPc(b, s.stage[c].me, B.Blocking(s.stage[c].act.epoch)) && s.stage[c].me !in s.conds[CV].queue
    ensures var s' := DoWait(s, c); CV in s'.conds && QueueRelated(s'.conds[CV], B.Do(b, B.Handle(s.stage[c].me)))
  {
    hide IsIdle;
  }

  // ---------- the simulation ----------

  /** Every step of the scheduler on the barrier's condition is the barrier's own step, and every other
      step is none. */
  lemma Simulates(p: CState, st: Step) returns (b': B.State)
    requires Inv(p.s) && Related(p) && CEnabled(p, Sched(st))
    ensures Leads(p.b, Meaning(p, st), b') && Related(CState(Do(p.s, st), b'))
  {
    hide Inv, Enabled, Do, B.Do, B.Enabled, QueueRelated, WaitersRelated, WaitsAt, Changes;
    KeysFacts(p.s);
    StepChanges(p.s, st);
    if st.GiveUp? {
      b' := GiveUpSimulated(p, st.c);
    } else if st.HandleWait? && HandlesWaitOn(p.s, st.c, CV) {
      b' := HandleSimulated(p, st.c);
    } else if st.NotifyAllBegin? && st.x == CV {
      b' := BeginSimulated(p, st.c);
    } else {
      b' := p.b;
      QueueStays(p, st);
      WaitersStay(p.s, Do(p.s, st), st, p.b, p.b);
    }
  }

  /** Steps that mean nothing to the barrier. */
  lemma QueueStays(p: CState, st: Step)
    requires Inv(p.s) && Related(p) && CEnabled(p, Sched(st)) && !(st.NotifyAllBegin? && st.x == CV)
    requires !(st.HandleWait? && HandlesWaitOn(p.s, st.c, CV))
    ensures CV in Do(p.s, st).conds && QueueRelated(Do(p.s, st).conds[CV], p.b)
  {
    hide Inv, Enabled, Do, QueueRelated, WaitersRelated;
    KeysFacts(p.s);
    if st == NotifyAllTake(st.c, CV) {
      TakeKeepsQueue(p.s, st.c, p.b);
    } else if st == NotifyAllEnd(st.c, CV) {
      EndKeepsQueue(p.s, st.c, p.b);
    } else {
      Untouched(p.s, st, CV);
    }
  }

  lemma GiveUpSimulated(p: CState, c: Core) returns (b': B.State)
    requires Inv(p.s) && Related(p) && CEnabled(p, Sched(GiveUp(c)))
    ensures Leads(p.b, Meaning(p, GiveUp(c)), b') && Related(CState(Do(p.s, GiveUp(c)), b'))
  {
    hide Inv, IsIdle, DoUp, DoDown, DoStop, DoWait, DoNotify, Changes;
    KeysFacts(p.s);
    var t, st := p.s.active[c], GiveUp(c);
    StepChanges(p.s, st);
    Untouched(p.s, st, CV);
    QueuedElsewhere(p.s, c);
    b' := p.b;
    if p.s.stage[c].act.Wait? && p.s.stage[c].act.cond == CV {
      assert WaitsAt(p.s, c, CV, p.s.stage[c].act.epoch);
      b' := B.Do(p.b, B.GiveUp(t));
    }
    WaitersStay(p.s, Do(p.s, st), st, p.b, b');
  }

  lemma HandleSimulated(p: CState, c: Core) returns (b': B.State)
    requires Inv(p.s) && Related(p) && CEnabled(p, Sched(HandleWait(c))) && HandlesWaitOn(p.s, c, CV)
    ensures Leads(p.b, Meaning(p, HandleWait(c)), b') && Related(CState(Do(p.s, HandleWait(c)), b'))
  {
    hide Inv, IsIdle, Changes, DoWait, QueueRelated, Frame;
    var s, t, st := p.s, p.s.stage[c].me, HandleWait(c);
    KeysFacts(s);
    StepChanges(s, st);
    WaitHandled(s, c);
    QueuedElsewhere(s, c);
    assert WaitsAt(s, c, CV, s.stage[c].act.epoch);
    b' := B.Do(p.b, B.Handle(t));
    HandleKeepsQueue(s, c, p.b);
    WaitersStay(s, Do(s, st), st, p.b, b');
  }

  lemma BeginSimulated(p: CState, c: Core) returns (b': B.State)
    requires Inv(p.s) && Related(p) && CEnabled(p, Sched(NotifyAllBegin(c, CV)))
    ensures Leads(p.b, Meaning(p, NotifyAllBegin(c, CV)), b') && Related(CState(Do(p.s, NotifyAllBegin(c, CV)), b'))
  {
    hide Inv, IsIdle, Changes;
    var t, st := p.s.active[c], NotifyAllBegin(c, CV);
    KeysFacts(p.s);
    StepChanges(p.s, st);
    QueuedElsewhere(p.s, c);
    b' := B.Do(p.b, B.Release(t));
    WaitersStay(p.s, Do(p.s, st), st, p.b, b');
  }

  // ---------- runs ----------

  ghost predicate CInitial(p: CState) {
    Initial(p.s) && B.Initial(p.b) && CV in p.s.conds
  }

  ghost predicate CNext(p: CState, a: CStep, p': CState) {
    && CEnabled(p, a)
    && match a
       case Sched(st) => p'.s == Do(p.s, st) && Leads(p.b, Meaning(p, st), p'.b)
       case Local(_, act) => p' == p.(b := B.Do(p.b, act))
  }

  ghost predicate CIsRun(ps: seq<CState>, acts: seq<CStep>) {
    |ps| == |acts| + 1 && CInitial(ps[0]) && forall i :: 0 <= i < |acts| ==> CNextAt(ps, acts, i)
  }

  ghost predicate CNextAt(ps: seq<CState>, acts: seq<CStep>, i: nat)
    requires i < |acts| && |ps| == |acts| + 1
  {
    CNext(ps[i], acts[i], ps[i + 1])
  }

  ghost predicate CInv(p: CState) {
    Inv(p.s) && B.Inv(p.b) && Related(p)
  }

  lemma LocalRelated(p: CState, c: Core, a: B.Step)
    requires Inv(p.s) && Related(p) && CEnabled(p, Local(c, a))
    ensures Related(p.(b := B.Do(p.b, a)))
  {
    hide Inv, IsIdle;
    KeysFacts(p.s);
    QueuedElsewhere(p.s, c);
    CallerHere(p.s, c);
    var b' := B.Do(p.b, a);
    forall d, e | WaitsAt(p.s, d, CV, e) ensures AtPc(b', Caller(p.s, d), B.Blocking(e)) {
      CallerHere(p.s, d);
    }
  }

  lemma CNextKeepsInv(p: CState, a: CStep, p': CState)
    requires CInv(p) && CNext(p, a, p')
    ensures CInv(p')
  {
    hide Inv, B.Inv, Related, Do, B.Do, B.Enabled, Enabled, Meaning;
    match a
    case Sched(st) =>
      StepKeepsInv(p.s, st);
      var b' := Simulates(p, st);
      assert b' == p'.b;
      if Meaning(p, st).Takes? {
        B.StepKeepsInv(p.b, Meaning(p, st).a);
      }
    case Local(c, act) =>
      LocalRelated(p, c, act);
      B.StepKeepsInv(p.b, act);
  }

  lemma CInitialOk(p: CState)
    requires CInitial(p)
    ensures CInv(p)
  {
    hide Inv, IsIdle;
    InitialOk(p.s);
    assert B.Arrived(p.b.pc) == {};
  }

  /** A barrier that uses the scheduler's condition is in every run at a state of Barrier that satisfies
      its invariant. */
  lemma {:induction false} CRunKeepsInv(ps: seq<CState>, acts: seq<CStep>, i: nat)
    requires CIsRun(ps, acts) && i < |ps|
    ensures CInv(ps[i])
  {
    hide CInv, CInitial, CNext;
    if i == 0 {
      CInitialOk(ps[0]);
    } else {
      CRunKeepsInv(ps, acts, i - 1);
      assert CNextAt(ps, acts, i - 1);
      CNextKeepsInv(ps[i - 1], acts[i - 1], ps[i]);
    }
  }

  lemma HeadQueued(m: CondState, b: B.State)
    requires QueueRelated(m, b) && m.notifier.None?
    ensures m.queue == [] || exists t :: t in b.pc && b.pc[t].Queued?
  {
    assert m.queue != [] ==> m.queue[0] in m.queue;
  }

  /** Nobody passes before all have arrived. Once the releaser's notifyAll is over, no caller is left in the
      scheduler's queue, and a handler that is still to come makes its thread ready. */
  lemma SyncOverConditions(ps: seq<CState>, acts: seq<CStep>, i: nat, t: Tid, c: Core)
    requires CIsRun(ps, acts) && i < |ps|
    ensures AtPc(ps[i].b, t, B.Done) ==> ps[i].b.count == 0 && |ps[i].b.pc| == ps[i].b.size
    ensures ps[i].b.notified && Unlocked(ps[i].s, CV) ==>
      && ps[i].s.conds[CV].queue == []
      && (HandlesWaitOn(ps[i].s, c, CV) ==>
          DoWait(ps[i].s, c) == At(ps[i].s, c, Requeue(ps[i].s.stage[c].me, ps[i].s.stage[c].next)))
  {
    hide CIsRun, Inv, IsIdle;
    CRunKeepsInv(ps, acts, i);
    var s, b := ps[i].s, ps[i].b;
    if AtPc(b, t, B.Done) {
      B.NobodyEarly(b, t);
    }
    if b.notified && Unlocked(s, CV) {
      HeadQueued(s.conds[CV], b);
      B.NobodyStuck(b, B.Check(t));
      if HandlesWaitOn(s, c, CV) {
        assert WaitsAt(s, c, CV, s.stage[c].act.epoch);
        assert B.PcOk(b, s.stage[c].me);
      }
    }
  }
}
