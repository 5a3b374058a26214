/** What the invariant of Scheduler says about every run. */
module SchedulerFacts {
  import opened Scheduler
  import opened SchedulerSteps
  import opened SchedulerFrames

  /** After threadsInit each core runs its own idle thread and all queues are empty. */
  ghost predicate Initial(s: State) {
    && s.active.Keys == s.stage.Keys && s.idle == s.active && REAPER in s.conds
    && (forall c :: c in s.stage ==> s.stage[c] == Run)
    && (forall c, d :: c in s.idle && d in s.idle && c != d ==> s.idle[c] != s.idle[d])
    && (forall c :: c in s.idle ==> s.idle[c] in s.place && s.place[s.idle[c]] == OnCore(c))
    && (forall t :: t in s.place ==> exists c :: c in s.idle && s.idle[c] == t)
    && s.ready == [] && s.zombies == [] && s.carry == map[] && s.saved == {} && s.asking == map[]
    && (forall x :: x in s.sems ==> s.sems[x] == SemState(s.sems[x].count, [], s.sems[x].count, 0, 0, 0, [], []))
    && (forall x :: x in s.conds ==> s.conds[x] == CondState(0, [], map[], 0, None))
  }

  ghost predicate IsRun(ss: seq<State>, sts: seq<Step>) {
    && |ss| == |sts| + 1 && Initial(ss[0])
    && forall i :: 0 <= i < |sts| ==> StepAt(ss, sts, i)
  }

  ghost predicate StepAt(ss: seq<State>, sts: seq<Step>, i: nat)
    requires i < |sts| && |ss| == |sts| + 1
  {
    Enabled(ss[i], sts[i]) && ss[i + 1] == Do(ss[i], sts[i])
  }

  lemma InitialOk(s: State)
    requires Initial(s)
    ensures Inv(s)
  {
    hide CoreOk, ThreadOk, ContextOk, SemOk, CondOk, IsIdle, QueueOk;
    forall c | c in s.stage ensures CoreOk(s, c) {
      InitialCore(s, c);
    }
    forall t | t in s.place ensures ThreadOk(s, t) && ContextOk(s, t) {
      InitialThread(s, t);
    }
    InitialQueues(s);
  }

  lemma InitialCore(s: State, c: Core)
    requires Initial(s) && c in s.stage
    ensures CoreOk(s, c)
  {
  }

  lemma InitialThread(s: State, t: Tid)
    requires Initial(s) && t in s.place
    ensures ThreadOk(s, t) && ContextOk(s, t)
  {
    var c :| c in s.idle && s.idle[c] == t;
    assert s.active[c] == t;
  }

  lemma InitialQueues(s: State)
    requires Initial(s)
    ensures forall x :: x in s.sems ==> SemOk(s, x)
    ensures forall x :: x in s.conds ==> CondOk(s, x)
    ensures QueueOk(s, s.ready, Ready) && QueueOk(s, s.zombies, Zombie)
  {
    hide SemOk, CondOk;
    forall x | x in s.sems ensures SemOk(s, x) {
      InitialSem(s, x);
    }
    forall x | x in s.conds ensures CondOk(s, x) {
      InitialCond(s, x);
    }
  }

  lemma InitialSem(s: State, x: Id)
    requires x in s.sems && s.asking == map[]
    requires s.sems[x] == SemState(s.sems[x].count, [], s.sems[x].count, 0, 0, 0, [], [])
    ensures SemOk(s, x)
  {
    assert Askers(s.asking, x) == {};
  }

  lemma InitialCond(s: State, x: Id)
    requires x in s.conds && s.conds[x] == CondState(0, [], map[], 0, None)
    ensures CondOk(s, x)
  {
  }

  /** The invariant holds in every state of every run, for any number of cores and threads. */
  lemma {:induction false} RunKeepsInv(ss: seq<State>, sts: seq<Step>, i: nat)
    requires IsRun(ss, sts) && i < |ss|
    ensures Inv(ss[i])
  {
    hide Inv, Initial, Enabled, Do;
    if i == 0 {
      InitialOk(ss[0]);
    } else {
      RunKeepsInv(ss, sts, i - 1);
      assert StepAt(ss, sts, i - 1);
      StepKeepsInv(ss[i - 1], sts[i - 1]);
    }
  }

  // ---------- one place each ----------

  /** Thread t can actually be found at p. */
  ghost predicate FoundAt(s: State, t: Tid, p: Place) {
    match p
    case OnCore(c) => c in s.stage && c in s.active && Holds(s, c, t)
    case Ready => t in s.ready
    case SemQ(x) => x in s.sems && t in s.sems[x].queue
    case CondQ(x) => x in s.conds && t in s.conds[x].queue
    case Zombie => t in s.zombies
    case Carried(u) => u in s.carry && s.carry[u] == t
    case Resting => IsIdle(s, t) && forall c :: c in s.stage && c in s.active ==> !Holds(s, c, t)
  }

  /** Every thread is found in exactly one place: held by one core, in one queue, a zombie, in the hands
      of a thread about to schedule it, or resting. */
  lemma OnePlace(s: State, t: Tid, p: Place)
    requires Inv(s)
    ensures FoundAt(s, t, p) ==> t in s.place && s.place[t] == p
    ensures t in s.place && s.place[t] == p ==> FoundAt(s, t, p)
  {
    hide Inv, ContextOk, AskOk, SemOk, CondOk, QueueOk, IsIdle;
    QueueFacts(s);
    KeysFacts(s);
    match p
    case OnCore(c) =>
      if c in s.stage {
        HeldPlaced(s, c, t);
      }
    case Ready => QueuedAt(s, s.ready, Ready, t);
    case SemQ(x) =>
      if x in s.sems {
        AskFacts(s, 0);
        SemQueueOf(s, x);
        QueuedAt(s, s.sems[x].queue, p, t);
      }
    case CondQ(x) =>
      if x in s.conds {
        AskFacts(s, 0);
        OpenCond(s, x);
        QueuedAt(s, s.conds[x].queue, p, t);
      }
    case Zombie => QueuedAt(s, s.zombies, Zombie, t);
    case Carried(u) =>
    case Resting => RestingPlace(s, t);
  }

  lemma HeldPlaced(s: State, c: Core, t: Tid)
    requires Inv(s) && c in s.stage
    ensures c in s.active && (Holds(s, c, t) <==> t in s.place && s.place[t] == OnCore(c))
  {
    hide Inv;
    CoreFacts(s, c);
  }

  /** The thread that called block() is on its core until its handler is over. */
  lemma CallerHere(s: State, c: Core)
    requires Inv(s) && c in s.stage
    ensures c in s.active && Caller(s, c) in s.place && s.place[Caller(s, c)] == OnCore(c)
  {
    hide Inv, IsIdle, ActionOk;
    CoreFacts(s, c);
  }

  lemma QueuedAt(s: State, q: seq<Tid>, p: Place, t: Tid)
    requires QueueOk(s, q, p)
    ensures t in q ==> t in s.place && s.place[t] == p && !IsIdle(s, t)
  {
  }

  lemma SemQueueOf(s: State, x: Id)
    requires x in s.sems && SemOk(s, x)
    ensures QueueOk(s, s.sems[x].queue, SemQ(x))
  {
  }

  lemma RestingPlace(s: State, t: Tid)
    requires Inv(s)
    ensures FoundAt(s, t, Resting) <==> t in s.place && s.place[t] == Resting
  {
    hide Inv, Holds, CoreOk;
    QueueFacts(s);
    KeysFacts(s);
    if IsIdle(s, t) {
      var c :| c in s.idle && s.idle[c] == t;
      IdleOnOwnCore(s, c);
      HeldPlaced(s, c, t);
    }
    forall d | t in s.place && s.place[t] == Resting && d in s.stage && d in s.active ensures !Holds(s, d, t) {
      HeldPlaced(s, d, t);
    }
  }

  // ---------- idle threads ----------

  /** Idle thread i runs on core i or rests; it is in no queue. */
  lemma IdleOnOwnCore(s: State, c: Core)
    requires Inv(s) && c in s.idle
    ensures s.idle[c] in s.place && (s.place[s.idle[c]] == Resting || s.place[s.idle[c]] == OnCore(c))
    ensures c in s.stage && c in s.active
  {
    hide Inv, StageOk;
    KeysFacts(s);
    CoreFacts(s, c);
  }

  // ---------- saved contexts ----------

  /** No two cores execute on the same stack, and a core only switches to a saved context. */
  lemma StacksApart(s: State, c: Core, d: Core)
    requires Inv(s) && c in s.stage && d in s.stage
    ensures c in s.active && d in s.active && (c != d ==> StackOf(s, c) != StackOf(s, d))
    ensures s.stage[c].Saved? ==> s.stage[c].next in s.saved
  {
    hide Inv;
    CoreFacts(s, c);
    CoreFacts(s, d);
  }

  /** A thread in any queue, or about to be deleted, has its registers saved and no core on its stack. */
  lemma QueuedIsSaved(s: State, t: Tid, c: Core)
    requires Inv(s) && t in s.place && !s.place[t].OnCore? && c in s.stage
    ensures t in s.saved && c in s.active && StackOf(s, c) != t
  {
    hide Inv;
    QueueFacts(s);
    CoreFacts(s, c);
  }

  // ---------- semaphores ----------

  /** Units are neither lost nor invented, a positive count means nobody waits, threads are let in
      in the order in which they queued, and each call of down is granted at most once. */
  lemma SemaphoreFacts(s: State, x: Id)
    requires Inv(s) && x in s.sems
    ensures var m := s.sems[x];
            && m.initial + m.ups == m.count + m.grants
            && (m.count > 0 ==> m.queue == [])
            && m.added == m.removed + m.queue
            && m.asked == m.grants + |Askers(s.asking, x)|
    ensures forall t :: t in s.sems[x].queue ==> t in Askers(s.asking, x)
  {
    hide Inv;
    AskFacts(s, 0);
  }

  /** A thread that waits for a grant is never ready, running on, or carried. */
  lemma NoGrantNoRun(s: State, t: Tid)
    requires Inv(s) && t in s.asking
    ensures t in s.place && (s.place[t] == SemQ(s.asking[t]) || s.place[t].OnCore?)
    ensures forall c :: c in s.stage && c in s.active && s.stage[c].Run? ==> s.active[c] != t
  {
    hide Inv, IsIdle;
    QueueFacts(s);
    forall c | c in s.stage && c in s.active && s.stage[c].Run? ensures s.active[c] != t {
      CoreFacts(s, c);
    }
  }

  // ---------- conditions ----------

  ghost predicate EpochsGrow(s: State, s': State) {
    forall x :: x in s.conds ==>
      x in s'.conds && s.conds[x].epoch <= s'.conds[x].epoch && s.conds[x].lastAll <= s'.conds[x].lastAll
  }

  lemma StepGrows(s: State, st: Step)
    requires Inv(s) && Enabled(s, st)
    ensures EpochsGrow(s, Do(s, st))
  {
    hide Inv, IsIdle, CondOk, Do, Enabled;
    AskFacts(s, 0);
    KeysFacts(s);
    forall x | x in s.conds ensures s.conds[x].lastAll <= s.conds[x].epoch {
      OpenCond(s, x);
    }
    DoGrows(s, st);
  }

  lemma DoGrows(s: State, st: Step)
    requires s.active.Keys == s.stage.Keys && Enabled(s, st)
    requires forall x :: x in s.conds ==> s.conds[x].lastAll <= s.conds[x].epoch
    ensures EpochsGrow(s, Do(s, st))
  {
    hide Do, Enabled, EpochsGrow, OwnStage;
    if st.NotifyOne? || st.NotifyAllBegin? || st.NotifyAllTake? || st.NotifyAllEnd? {
      NotifyGrows(s, st);
    } else if st.HandleStop? || st.HandleWait? {
      HandlerGrows(s, st);
    } else {
      StepChanges(s, st);
      SameCondsGrow(s, Do(s, st));
    }
  }

  lemma SameCondsGrow(s: State, s': State)
    requires s'.conds == s.conds
    ensures EpochsGrow(s, s')
  {
  }

  lemma NotifyGrows(s: State, st: Step)
    requires Enabled(s, st) && forall x :: x in s.conds ==> s.conds[x].lastAll <= s.conds[x].epoch
    requires st.NotifyOne? || st.NotifyAllBegin? || st.NotifyAllTake? || st.NotifyAllEnd?
    ensures EpochsGrow(s, Do(s, st))
  {
  }

  lemma HandlerGrows(s: State, st: Step)
    requires Enabled(s, st) && (st.HandleStop? || st.HandleWait?)
    ensures EpochsGrow(s, Do(s, st))
  {
    hide IsIdle, DoStop, DoWait, EpochsGrow, HandlesStop, HandlesWait;
    match st
    case HandleStop(c) => StopGrows(s, c);
    case HandleWait(c) => WaitGrows(s, c);
  }

  lemma StopGrows(s: State, c: Core)
    requires HandlesStop(s, c)
    ensures EpochsGrow(s, DoStop(s, c))
  {
    hide IsIdle, Buried, Woken, EpochsGrow;
    var me := s.stage[c].me;
    if IsIdle(s, me) {
      SameCondsGrow(s, DoStop(s, c));
    } else {
      BuriedGrows(s, c, me);
      if s.conds[REAPER].queue != [] {
        WokenGrows(s, Buried(s, c, me), c);
      }
    }
  }

  lemma BuriedGrows(s: State, c: Core, me: Tid)
    requires REAPER in s.conds && c in s.active
    ensures var s1 := Buried(s, c, me);
            && EpochsGrow(s, s1) && REAPER in s1.conds && s1.conds[REAPER].queue == s.conds[REAPER].queue
            && c in s1.active
  {
  }

  lemma WokenGrows(s: State, s1: State, c: Core)
    requires EpochsGrow(s, s1) && REAPER in s1.conds && s1.conds[REAPER].queue != [] && c in s1.active
    ensures EpochsGrow(s, Woken(s1, c, REAPER))
  {
  }

  lemma WaitGrows(s: State, c: Core)
    requires HandlesWait(s, c)
    ensures EpochsGrow(s, DoWait(s, c))
  {
    hide IsIdle;
  }

  lemma {:induction false} RunGrows(ss: seq<State>, sts: seq<Step>, i: nat, j: nat)
    requires IsRun(ss, sts) && i <= j < |ss|
    ensures EpochsGrow(ss[i], ss[j])
  {
    hide Inv, Initial, Enabled, Do;
    if i < j {
      RunGrows(ss, sts, i, j - 1);
      RunKeepsInv(ss, sts, j - 1);
      assert StepAt(ss, sts, j - 1);
      StepGrows(ss[j - 1], sts[j - 1]);
    }
  }

  /** A wait that read the epoch under the lock in state i, before a notifyAll began in step j, is not in
      the queue once a notifyAll is over, and if its handler is still to come it queues the thread as ready
      instead. The thread may be preempted anywhere in between. */
  lemma NoMissedSignal(ss: seq<State>, sts: seq<Step>, i: nat, j: nat, k: nat, x: Id)
    requires IsRun(ss, sts) && i <= j < k < |ss| && j < |sts|
    requires x in ss[i].conds && sts[j].NotifyAllBegin? && sts[j].x == x
    ensures x in ss[k].conds
    ensures var e, m := ss[i].conds[x].epoch, ss[k].conds[x];
            && e < m.lastAll
            && (m.notifier.None? ==> forall w :: w in m.queue ==> w in m.since && m.since[w] != e)
            && forall c :: HandlesWait(ss[k], c) && ss[k].stage[c].act == Wait(x, e) ==>
                 DoWait(ss[k], c) == At(ss[k], c, Requeue(ss[k].stage[c].me, ss[k].stage[c].next))
  {
    hide Inv, Initial, IsIdle;
    assert StepAt(ss, sts, j);
    RunGrows(ss, sts, i, j);
    RunGrows(ss, sts, j + 1, k);
    RunKeepsInv(ss, sts, k);
    AskFacts(ss[k], 0);
  }
}
