/**
 * The reaper thread (kernel/threads.cc): it looks for zombies under a lock and waits on the condition REAPER
 * when there are none. No thread that stops is forgotten.
 */
module Reaper {
  import opened Scheduler
  import opened SchedulerSteps
  import opened SchedulerFrames
  import opened SchedulerFacts
  import opened SchedulerEffects

  datatype Seen = Never | Empty(epoch: nat)

  /** reaper is the thread, seen the epoch at which it last found no zombies. */
  datatype RState = RState(s: State, reaper: Tid, seen: Seen)

  datatype RStep =
    | Sched(st: Step)
    | Look(c: Core) // the reaper, under the lock, finds no zombies and reads the epoch

  /** Only the reaper waits on REAPER, with the epoch it read, and only stopping threads notify it. */
  ghost predicate REnabled(r: RState, a: RStep) {
    match a
    case Sched(st) =>
      && Enabled(r.s, st)
      && (st.CallWait? && st.x == REAPER ==>
          st.c in r.s.active && r.s.active[st.c] == r.reaper && r.seen == Empty(st.e))
      && !((st.NotifyOne? || st.NotifyAllBegin?) && st.x == REAPER)
    case Look(c) => Running(r.s, c) && r.s.active[c] == r.reaper && Unlocked(r.s, REAPER) && r.s.zombies == []
  }

  ghost function RDo(r: RState, a: RStep): RState
    requires REnabled(r, a)
  {
    match a
    case Sched(st) => r.(s := Do(r.s, st))
    case Look(_) => r.(seen := Empty(r.s.conds[REAPER].epoch))
  }

  // ---------- the invariant ----------

  /** What the reaper saw holds as long as nobody stopped since. */
  ghost predicate SeenOk(s: State, seen: Seen)
    requires REAPER in s.conds
  {
    seen.Empty? ==> seen.epoch <= s.conds[REAPER].epoch && (seen.epoch == s.conds[REAPER].epoch ==> s.zombies == [])
  }

  /** The reaper alone is inside wait, and has the epoch that it read. */
  ghost predicate WaiterOk(r: RState) {
    forall d, e :: WaitsAt(r.s, d, REAPER, e) ==> Caller(r.s, d) == r.reaper && r.seen == Empty(e)
  }

  /** Nobody but the reaper is queued, and only while there are no zombies. */
  ghost predicate QueueEmptyOr(s: State, reaper: Tid)
    requires REAPER in s.conds
  {
    var m := s.conds[REAPER];
    && m.notifier.None? && (forall t :: t in m.queue ==> t == reaper)
    && (s.zombies != [] ==> m.queue == [])
  }

  ghost predicate RInv(r: RState) {
    Inv(r.s) && REAPER in r.s.conds && SeenOk(r.s, r.seen) && WaiterOk(r) && QueueEmptyOr(r.s, r.reaper)
  }

  lemma StepKeeps(r: RState, a: RStep)
    requires RInv(r) && REnabled(r, a)
    ensures RInv(RDo(r, a))
  {
    hide Inv, Enabled, Do, SeenOk, WaiterOk, QueueEmptyOr, Changes;
    KeysFacts(r.s);
    match a
    case Look(c) => LookKeeps(r, c);
    case Sched(st) =>
      StepKeepsInv(r.s, st);
      KeysFacts(Do(r.s, st));
      StepChanges(r.s, st);
      WaiterKeeps(r, st);
      if st.HandleStop? {
        StopKeeps(r, st.c);
      } else if st.HandleWait? && HandlesWaitOn(r.s, st.c, REAPER) {
        WaitKeeps(r, st.c);
      } else {
        OtherKeeps(r, st);
      }
  }

  lemma WaiterKeeps(r: RState, st: Step)
    requires RInv(r) && REnabled(r, Sched(st)) && Changes(r.s, Do(r.s, st), st)
    ensures WaiterOk(r.(s := Do(r.s, st)))
  {
    hide Inv, Do, SeenOk, QueueEmptyOr, Changes, IsIdle;
    var s' := Do(r.s, st);
    forall d, e | WaitsAt(s', d, REAPER, e) ensures Caller(s', d) == r.reaper && r.seen == Empty(e) {
      WaitedBefore(r.s, s', st, d, REAPER, e);
      if st == CallWait(d, REAPER, e) {
        CalledWait(r.s, s', st, d, e);
      }
    }
  }

  lemma CalledWait(s: State, s': State, st: Step, d: Core, e: nat)
    requires Changes(s, s', st) && st == CallWait(d, REAPER, e) && WaitsAt(s', d, REAPER, e)
    ensures d in s.active && Caller(s', d) == s.active[d]
  {
  }

  /** The reaper runs when it looks, so it is not inside wait. */
  lemma LookKeeps(r: RState, c: Core)
    requires RInv(r) && REnabled(r, Look(c))
    ensures RInv(RDo(r, Look(c)))
  {
    hide Inv, IsIdle;
    forall d, e | WaitsAt(r.s, d, REAPER, e) ensures false {
      CallerHere(r.s, d);
      CallerHere(r.s, c);
    }
  }

  /** A thread that stops takes the reaper out of the queue. */
  lemma StopKeeps(r: RState, c: Core)
    requires RInv(r) && REnabled(r, Sched(HandleStop(c)))
    ensures
      var s' := Do(r.s, HandleStop(c));
      REAPER in s'.conds && SeenOk(s', r.seen) && QueueEmptyOr(s', r.reaper)
  {
    hide Inv, Do, WaiterOk, IsIdle, CondOk;
    var s, me := r.s, r.s.stage[c].me;
    var q := s.conds[REAPER].queue;
    if IsIdle(s, me) {
      IdleStops(s, c);
    } else if q == [] {
      StopAlone(s, c);
    } else {
      AskFacts(s, c);
      OpenCond(s, REAPER);
      FirstTwoDiffer(q);
      FirstTwoSame(q, r.reaper);
      StopWakes(s, c, q[0], q[1..]);
    }
  }

  lemma FirstTwoDiffer(q: seq<Tid>)
    requires forall j, k :: 0 <= j < k < |q| ==> q[j] != q[k]
    ensures |q| > 1 ==> q[0] != q[1]
  {
  }

  lemma FirstTwoSame(q: seq<Tid>, t: Tid)
    requires forall u :: u in q ==> u == t
    ensures |q| > 1 ==> q[0] == t && q[1] == t
  {
    assert |q| > 1 ==> q[0] in q && q[1] in q;
  }

  /** The handler of the reaper's wait queues it only if nobody stopped since it looked. */
  lemma WaitKeeps(r: RState, c: Core)
    requires RInv(r) && REnabled(r, Sched(HandleWait(c))) && HandlesWaitOn(r.s, c, REAPER)
    requires Changes(r.s, Do(r.s, HandleWait(c)), HandleWait(c))
    ensures
      var s' := Do(r.s, HandleWait(c));
      REAPER in s'.conds && SeenOk(s', r.seen) && QueueEmptyOr(s', r.reaper)
  {
    hide Inv, Do, IsIdle, OwnStage;
    assert WaitsAt(r.s, c, REAPER, r.s.stage[c].act.epoch);
    WaitSettles(r.s, c);
  }

  lemma OtherKeeps(r: RState, st: Step)
    requires RInv(r) && REnabled(r, Sched(st)) && Changes(r.s, Do(r.s, st), st)
    requires !st.HandleStop? && !(st.HandleWait? && HandlesWaitOn(r.s, st.c, REAPER))
    ensures REAPER in Do(r.s, st).conds && SeenOk(Do(r.s, st), r.seen) && QueueEmptyOr(Do(r.s, st), r.reaper)
  {
    hide Inv, Do, IsIdle, OwnStage, WaiterOk;
    KeysFacts(r.s);
    assert !Touches(r.s, st, REAPER);
    Untouched(r.s, st, REAPER);
    if st.Reap? {
      ReapDeletes(r.s, st.c, r.s.zombies[0], r.s.zombies[1..]);
    }
  }

  // ---------- runs ----------

  ghost predicate RInitial(r: RState) {
    Initial(r.s) && r.seen == Never
  }

  ghost predicate RIsRun(rs: seq<RState>, acts: seq<RStep>) {
    && |rs| == |acts| + 1 && RInitial(rs[0])
    && forall i :: 0 <= i < |acts| ==> RStepAt(rs, acts, i)
  }

  ghost predicate RStepAt(rs: seq<RState>, acts: seq<RStep>, i: nat)
    requires i < |acts| && |rs| == |acts| + 1
  {
    REnabled(rs[i], acts[i]) && rs[i + 1] == RDo(rs[i], acts[i])
  }

  lemma {:induction false} RRunKeepsInv(rs: seq<RState>, acts: seq<RStep>, i: nat)
    requires RIsRun(rs, acts) && i < |rs|
    ensures RInv(rs[i])
  {
    hide Inv, Initial, REnabled, RDo, RInv;
    if i == 0 {
      NobodyYet(rs[0]);
    } else {
      RRunKeepsInv(rs, acts, i - 1);
      assert RStepAt(rs, acts, i - 1);
      StepKeeps(rs[i - 1], acts[i - 1]);
    }
  }

  lemma NobodyYet(r: RState)
    requires RInitial(r)
    ensures RInv(r)
  {
    hide Inv, IsIdle;
    InitialOk(r.s);
    assert r.s.conds[REAPER] == CondState(0, [], map[], 0, None);
  }

  /** While a zombie waits to be deleted the reaper does not sleep: it is in no queue of its condition, and if it
      is still on its way into it, it becomes ready instead. */
  lemma NoZombieForgotten(rs: seq<RState>, acts: seq<RStep>, i: nat, c: Core)
    requires RIsRun(rs, acts) && i < |rs| && rs[i].s.zombies != []
    ensures REAPER in rs[i].s.conds && rs[i].s.conds[REAPER].queue == []
    ensures rs[i].reaper in rs[i].s.place ==> rs[i].s.place[rs[i].reaper] != CondQ(REAPER)
    ensures HandlesWaitOn(rs[i].s, c, REAPER) ==>
      var s, s1 := rs[i].s, Do(rs[i].s, HandleWait(c));
      s.stage[c].me == rs[i].reaper && Enabled(s1, Schedule(c)) && Readied(s, Do(s1, Schedule(c)), rs[i].reaper)
  {
    hide RIsRun, Inv, IsIdle, CondOk, Do;
    RRunKeepsInv(rs, acts, i);
    var s := rs[i].s;
    QueueFacts(s);
    if HandlesWaitOn(s, c, REAPER) {
      assert WaitsAt(s, c, REAPER, s.stage[c].act.epoch);
      WaitSettles(s, c);
    }
  }
}
