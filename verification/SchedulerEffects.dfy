/**
 * What the operations of threads, semaphores and conditions do to the queues, said of the steps alone: who
 * is woken, in which order, and where everybody ends up.
 */
module SchedulerEffects {
  import opened Scheduler
  import opened SchedulerSteps
  import opened SchedulerFrames

  /** Thread t is last in the ready queue, behind those that were ready in s. */
  ghost predicate Readied(s: State, s': State, t: Tid) {
    s'.ready == s.ready + [t] && t in s'.place && s'.place[t] == Ready
  }

  // ---------- notify ----------

  /** A thread that stops becomes a zombie and wakes the reaper: the head of its queue is about to be
      scheduled by the same core, and then last in the ready queue. */
  lemma StopWakes(s: State, c: Core, w: Tid, rest: seq<Tid>)
    requires Enabled(s, HandleStop(c)) && !IsIdle(s, s.stage[c].me) && s.conds[REAPER].queue == [w] + rest
    ensures
      var s1 := Do(s, HandleStop(c));
      && s1.zombies == s.zombies + [s.stage[c].me] && REAPER in s1.conds && s1.conds[REAPER].queue == rest
      && s1.conds[REAPER].epoch == s.conds[REAPER].epoch + 1 && s1.ready == s.ready
      && s1.conds[REAPER].notifier == s.conds[REAPER].notifier
      && w in s1.place && s1.place[w] == OnCore(c) && Enabled(s1, Schedule(c))
      && var s2 := Do(s1, Schedule(c));
         Readied(s, s2, w) && s2.conds == s1.conds && s2.zombies == s1.zombies && c in s2.stage && s2.stage[c] == Run
  {
    hide IsIdle;
    StopTakes(s, c, w, rest);
    ScheduleReadies(Do(s, HandleStop(c)), c);
  }

  lemma StopTakes(s: State, c: Core, w: Tid, rest: seq<Tid>)
    requires Enabled(s, HandleStop(c)) && !IsIdle(s, s.stage[c].me) && s.conds[REAPER].queue == [w] + rest
    ensures
      var s1 := Do(s, HandleStop(c));
      && s1.zombies == s.zombies + [s.stage[c].me] && REAPER in s1.conds && s1.conds[REAPER].queue == rest
      && s1.conds[REAPER].epoch == s.conds[REAPER].epoch + 1 && s1.ready == s.ready
      && s1.conds[REAPER].notifier == s.conds[REAPER].notifier
      && w in s1.place && s1.place[w] == OnCore(c) && c in s1.stage && s1.stage[c].Requeue? && s1.stage[c].x == w
  {
    hide IsIdle, DoUp, DoDown, DoWait, DoNotify, DoDeliver, DoSpawn, DoReap, DoDownBlock, DoSchedule;
  }

  /** Without a waiting reaper the core runs on. */
  lemma StopAlone(s: State, c: Core)
    requires Enabled(s, HandleStop(c)) && !IsIdle(s, s.stage[c].me) && s.conds[REAPER].queue == []
    ensures
      var s1, me := Do(s, HandleStop(c)), s.stage[c].me;
      && c in s1.stage && s1.stage[c] == Run && s1.ready == s.ready && s1.zombies == s.zombies + [me]
      && me in s1.place && s1.place[me] == Zombie && REAPER in s1.conds
      && s1.conds[REAPER].epoch == s.conds[REAPER].epoch + 1 && s1.conds[REAPER].queue == []
      && s1.conds[REAPER].notifier == s.conds[REAPER].notifier
  {
    hide IsIdle, DoUp, DoDown, DoWait, DoNotify, DoDeliver, DoSpawn, DoReap, DoDownBlock, DoSchedule;
  }

  /** An idle thread that stops only rests. */
  lemma IdleStops(s: State, c: Core)
    requires Enabled(s, HandleStop(c)) && IsIdle(s, s.stage[c].me)
    ensures
      var s1, me := Do(s, HandleStop(c)), s.stage[c].me;
      && c in s1.stage && s1.stage[c] == Run && s1.ready == s.ready && s1.zombies == s.zombies
      && s1.conds == s.conds && me in s1.place && s1.place[me] == Resting
  {
    hide IsIdle, DoUp, DoDown, DoWait, DoNotify, DoDeliver, DoSpawn, DoReap, DoDownBlock, DoSchedule;
  }

  lemma ScheduleReadies(s: State, c: Core)
    requires Enabled(s, Schedule(c))
    ensures
      var s' := Do(s, Schedule(c));
      && Readied(s, s', s.stage[c].x) && c in s'.stage && s'.stage[c] == Run
      && s'.conds == s.conds && s'.sems == s.sems && s'.zombies == s.zombies && s'.active == s.active
      && s'.saved == s.saved && forall t :: t in s.place && t != s.stage[c].x ==>
        t in s'.place && s'.place[t] == s.place[t]
  {
  }

  /** A thread that has taken another from a queue puts it last in the ready queue. */
  lemma DeliverReadies(s: State, c: Core)
    requires Enabled(s, Deliver(c))
    ensures
      var s', u := Do(s, Deliver(c)), s.active[c];
      && Readied(s, s', s.carry[u]) && s'.carry == s.carry - {u}
      && s'.stage == s.stage && s'.active == s.active && s'.conds == s.conds && s'.sems == s.sems
  {
  }

  /** notifyOne takes the head of the queue, which is last in the ready queue one step later. */
  lemma NotifyOneWakes(s: State, c: Core, x: Id, w: Tid, rest: seq<Tid>)
    requires Enabled(s, NotifyOne(c, x)) && s.conds[x].queue == [w] + rest
    ensures
      var s1 := Do(s, NotifyOne(c, x));
      && x in s1.conds && s1.conds[x].queue == rest && s1.conds[x].epoch == s.conds[x].epoch + 1 && s1.ready == s.ready
      && Enabled(s1, Deliver(c))
      && var s2 := Do(s1, Deliver(c)); Readied(s, s2, w) && s2.conds == s1.conds && s2.stage == s.stage
  {
    hide IsIdle;
    NotifyOneTakes(s, c, x, w, rest);
    DeliverReadies(Do(s, NotifyOne(c, x)), c);
  }

  lemma NotifyOneTakes(s: State, c: Core, x: Id, w: Tid, rest: seq<Tid>)
    requires Enabled(s, NotifyOne(c, x)) && s.conds[x].queue == [w] + rest
    ensures
      var s1 := Do(s, NotifyOne(c, x));
      && x in s1.conds && s1.conds[x].queue == rest && s1.conds[x].epoch == s.conds[x].epoch + 1
      && s1.ready == s.ready && s1.stage == s.stage && s1.active == s.active
      && s1.active[c] in s1.carry && s1.carry[s1.active[c]] == w
  {
    hide IsIdle, DoUp, DoDown, DoStop, DoWait, DoDeliver, DoSpawn, DoReap, DoDownBlock, DoSchedule;
  }

  /** With an empty queue notifyOne raises the epoch and nothing else. */
  lemma NotifyNobody(s: State, c: Core, x: Id)
    requires Enabled(s, NotifyOne(c, x)) && s.conds[x].queue == []
    ensures Do(s, NotifyOne(c, x)) ==
      s.(conds := s.conds[x := s.conds[x].(epoch := s.conds[x].epoch + 1)])
  {
    hide IsIdle, DoUp, DoDown, DoStop, DoWait, DoDeliver, DoSpawn, DoReap, DoDownBlock, DoSchedule;
  }

  /** One round of notifyAll. */
  lemma TakeWakes(s: State, c: Core, x: Id)
    requires Enabled(s, NotifyAllTake(c, x))
    ensures
      var s1, m := Do(s, NotifyAllTake(c, x)), s.conds[x];
      && Enabled(s1, Deliver(c))
      && var s2 := Do(s1, Deliver(c));
      && Readied(s, s2, m.queue[0]) && Free(s2, c) && NotifierIs(s2, c, x)
      && s2.conds[x].queue == m.queue[1..] && s2.conds[x].epoch == m.epoch && s2.stage == s.stage
  {
    hide IsIdle;
    TakeTakes(s, c, x);
    DeliverReadies(Do(s, NotifyAllTake(c, x)), c);
  }

  lemma TakeTakes(s: State, c: Core, x: Id)
    requires Enabled(s, NotifyAllTake(c, x))
    ensures
      var s1, m := Do(s, NotifyAllTake(c, x)), s.conds[x];
      && x in s1.conds && s1.conds[x].queue == m.queue[1..] && s1.conds[x].epoch == m.epoch
      && s1.conds[x].notifier == m.notifier && s1.ready == s.ready && s1.stage == s.stage && s1.active == s.active
      && s1.active[c] in s1.carry && s1.carry[s1.active[c]] == m.queue[0]
  {
    hide IsIdle, DoUp, DoDown, DoStop, DoWait, DoDeliver, DoSpawn, DoReap, DoDownBlock, DoSchedule;
  }

  /** The states that follow one another when core c takes n rounds of notifyAll without a break. */
  ghost predicate Rounds(s: State, c: Core, x: Id, n: nat, s': State)
    decreases n
  {
    if n == 0 then s' == s
    else
      && Enabled(s, NotifyAllTake(c, x)) && Enabled(Do(s, NotifyAllTake(c, x)), Deliver(c))
      && Rounds(Do(Do(s, NotifyAllTake(c, x)), Deliver(c)), c, x, n - 1, s')
  }

  /** notifyAll wakes everybody who was in the queue, in the order of the queue. */
  lemma {:induction false} AllRounds(s: State, c: Core, x: Id) returns (s': State)
    requires Free(s, c) && NotifierIs(s, c, x)
    ensures Rounds(s, c, x, |s.conds[x].queue|, s') && Enabled(s', NotifyAllEnd(c, x))
    ensures s'.ready == s.ready + s.conds[x].queue && x in s'.conds && s'.conds[x].epoch == s.conds[x].epoch
    decreases |s.conds[x].queue|
  {
    hide Do, Enabled;
    var q := s.conds[x].queue;
    RoundEnabled(s, c, x);
    if q == [] {
      s' := s;
    } else {
      TakeWakes(s, c, x);
      var s2 := Do(Do(s, NotifyAllTake(c, x)), Deliver(c));
      s' := AllRounds(s2, c, x);
      assert s.ready + [q[0]] + q[1..] == s.ready + q;
    }
  }

  lemma RoundEnabled(s: State, c: Core, x: Id)
    requires Free(s, c) && NotifierIs(s, c, x)
    ensures if s.conds[x].queue == [] then Enabled(s, NotifyAllEnd(c, x)) else Enabled(s, NotifyAllTake(c, x))
  {
    hide IsIdle;
  }

  lemma BeginEffect(s: State, c: Core, x: Id)
    requires Enabled(s, NotifyAllBegin(c, x))
    ensures
      var s1 := Do(s, NotifyAllBegin(c, x));
      && Free(s1, c) && NotifierIs(s1, c, x) && s1.ready == s.ready
      && s1.conds[x].queue == s.conds[x].queue && s1.conds[x].epoch == s.conds[x].epoch + 1
  {
    hide IsIdle, DoUp, DoDown, DoStop, DoWait, DoNotify, DoDeliver, DoSpawn, DoReap, DoDownBlock, DoSchedule;
  }

  lemma EndEffect(s: State, c: Core, x: Id)
    requires Enabled(s, NotifyAllEnd(c, x))
    ensures
      var s1 := Do(s, NotifyAllEnd(c, x));
      && x in s.conds && x in s1.conds && s1.conds[x].queue == [] && s1.conds[x].epoch == s.conds[x].epoch
      && s1.ready == s.ready && Unlocked(s1, x)
  {
    hide IsIdle, DoUp, DoDown, DoStop, DoWait, DoNotify, DoDeliver, DoSpawn, DoReap, DoDownBlock, DoSchedule;
  }

  /** From its beginning to its end. */
  lemma NotifyAllWakes(s: State, c: Core, x: Id) returns (s': State)
    requires Enabled(s, NotifyAllBegin(c, x)) && x in s.conds
    ensures Rounds(Do(s, NotifyAllBegin(c, x)), c, x, |s.conds[x].queue|, s') && Enabled(s', NotifyAllEnd(c, x))
    ensures
      var s2 := Do(s', NotifyAllEnd(c, x));
      && s2.ready == s.ready + s.conds[x].queue
      && x in s2.conds && s2.conds[x].queue == [] && s2.conds[x].epoch == s.conds[x].epoch + 1 && Unlocked(s2, x)
  {
    hide IsIdle, Do, Enabled, Rounds;
    BeginEffect(s, c, x);
    s' := AllRounds(Do(s, NotifyAllBegin(c, x)), c, x);
    EndEffect(s', c, x);
  }

  // ---------- semaphores ----------

  /** up wakes the head of the queue, which has its grant and is last in the ready queue one step later. */
  lemma UpWakes(s: State, c: Core, x: Id, w: Tid, rest: seq<Tid>)
    requires Enabled(s, Up(c, x)) && s.sems[x].queue == [w] + rest
    ensures
      var s1 := Do(s, Up(c, x));
      && x in s1.sems && s1.sems[x].queue == rest && s1.sems[x].count == s.sems[x].count
      && w !in s1.asking && Enabled(s1, Deliver(c))
      && var s2 := Do(s1, Deliver(c)); Readied(s, s2, w) && s2.sems == s1.sems && s2.stage == s.stage
  {
    hide IsIdle;
    UpTakes(s, c, x, w, rest);
    DeliverReadies(Do(s, Up(c, x)), c);
  }

  lemma UpTakes(s: State, c: Core, x: Id, w: Tid, rest: seq<Tid>)
    requires Enabled(s, Up(c, x)) && s.sems[x].queue == [w] + rest
    ensures
      var s1 := Do(s, Up(c, x));
      && x in s1.sems && s1.sems[x].queue == rest && s1.sems[x].count == s.sems[x].count && w !in s1.asking
      && s1.ready == s.ready && s1.stage == s.stage && s1.active == s.active
      && s1.active[c] in s1.carry && s1.carry[s1.active[c]] == w
  {
    hide IsIdle, DoDown, DoStop, DoWait, DoNotify, DoDeliver, DoSpawn, DoReap, DoDownBlock, DoSchedule;
  }

  lemma UpAlone(s: State, c: Core, x: Id)
    requires Enabled(s, Up(c, x)) && s.sems[x].queue == []
    ensures
      var s1 := Do(s, Up(c, x));
      && x in s1.sems && s1.sems[x].count == s.sems[x].count + 1 && s1.sems[x].queue == []
      && s1.ready == s.ready && s1.carry == s.carry && s1.place == s.place
  {
    hide IsIdle, DoDown, DoStop, DoWait, DoNotify, DoDeliver, DoSpawn, DoReap, DoDownBlock, DoSchedule;
  }

  /** The handler of down takes a unit, and then the thread is ready, or queues the thread last. */
  lemma DownSettles(s: State, c: Core)
    requires Enabled(s, HandleDown(c))
    ensures
      var s1, x, me := Do(s, HandleDown(c)), s.stage[c].act.sem, s.stage[c].me;
      && x in s1.sems
      && if s.sems[x].count > 0 then
           && s1.sems[x].count == s.sems[x].count - 1 && s1.sems[x].queue == s.sems[x].queue && me !in s1.asking
           && Enabled(s1, Schedule(c)) && Readied(s, Do(s1, Schedule(c)), me)
         else
           && s1.sems[x].count == 0 && s1.sems[x].queue == s.sems[x].queue + [me]
           && s1.ready == s.ready && c in s1.stage && s1.stage[c] == Run
  {
    hide IsIdle;
    DownMoves(s, c);
    if s.sems[s.stage[c].act.sem].count > 0 {
      ScheduleReadies(Do(s, HandleDown(c)), c);
    }
  }

  lemma DownMoves(s: State, c: Core)
    requires Enabled(s, HandleDown(c))
    ensures
      var s1, x, me := Do(s, HandleDown(c)), s.stage[c].act.sem, s.stage[c].me;
      && x in s1.sems && c in s1.stage && s1.ready == s.ready
      && if s.sems[x].count > 0 then
           && s1.sems[x].count == s.sems[x].count - 1 && s1.sems[x].queue == s.sems[x].queue && me !in s1.asking
           && s1.stage[c].Requeue? && s1.stage[c].x == me
         else s1.sems[x].count == 0 && s1.sems[x].queue == s.sems[x].queue + [me] && s1.stage[c] == Run
  {
    hide IsIdle, DoUp, DoDown, DoStop, DoWait, DoNotify, DoDeliver, DoSpawn, DoReap, DoDownBlock, DoSchedule;
    if s.sems[s.stage[c].act.sem].count > 0 {
      DownTakes(s, c);
    } else {
      DownQueues(s, c);
    }
  }

  lemma DownTakes(s: State, c: Core)
    requires HandlesDown(s, c) && s.sems[s.stage[c].act.sem].count > 0
    ensures
      var s1, x, me := DoDown(s, c), s.stage[c].act.sem, s.stage[c].me;
      && x in s1.sems && c in s1.stage && s1.ready == s.ready
      && s1.sems[x].count == s.sems[x].count - 1 && s1.sems[x].queue == s.sems[x].queue && me !in s1.asking
      && s1.stage[c].Requeue? && s1.stage[c].x == me
  {
  }

  lemma DownQueues(s: State, c: Core)
    requires HandlesDown(s, c) && s.sems[s.stage[c].act.sem].count == 0
    ensures
      var s1, x, me := DoDown(s, c), s.stage[c].act.sem, s.stage[c].me;
      && x in s1.sems && c in s1.stage && s1.ready == s.ready
      && s1.sems[x].count == 0 && s1.sems[x].queue == s.sems[x].queue + [me] && s1.stage[c] == Run
  {
  }

  // ---------- wait ----------

  /** The handler of wait queues the thread last if there was no notify since the epoch was read, and makes it
      ready otherwise. */
  lemma WaitSettles(s: State, c: Core)
    requires Enabled(s, HandleWait(c))
    ensures
      var s1, x, me := Do(s, HandleWait(c)), s.stage[c].act.cond, s.stage[c].me;
      && x in s1.conds && s1.conds[x].epoch == s.conds[x].epoch && s1.conds[x].notifier == s.conds[x].notifier
      && if s.conds[x].epoch == s.stage[c].act.epoch then
           s1.conds[x].queue == s.conds[x].queue + [me] && s1.ready == s.ready && c in s1.stage && s1.stage[c] == Run
         else
           s1.conds == s.conds && Enabled(s1, Schedule(c)) && Readied(s, Do(s1, Schedule(c)), me)
  {
    hide IsIdle;
    WaitMoves(s, c);
    if s.conds[s.stage[c].act.cond].epoch != s.stage[c].act.epoch {
      ScheduleReadies(Do(s, HandleWait(c)), c);
    }
  }

  lemma WaitMoves(s: State, c: Core)
    requires Enabled(s, HandleWait(c))
    ensures
      var s1, x, me := Do(s, HandleWait(c)), s.stage[c].act.cond, s.stage[c].me;
      && x in s1.conds && s1.conds[x].epoch == s.conds[x].epoch && s1.ready == s.ready && c in s1.stage
      && s1.conds[x].notifier == s.conds[x].notifier
      && if s.conds[x].epoch == s.stage[c].act.epoch then
           s1.conds[x].queue == s.conds[x].queue + [me] && s1.stage[c] == Run
         else s1.conds == s.conds && s1.stage[c].Requeue? && s1.stage[c].x == me
  {
    hide IsIdle, DoUp, DoDown, DoStop, DoWait, DoNotify, DoDeliver, DoSpawn, DoReap, DoDownBlock, DoSchedule;
    if s.conds[s.stage[c].act.cond].epoch == s.stage[c].act.epoch {
      WaitQueues(s, c);
    } else {
      WaitPasses(s, c);
    }
  }

  lemma WaitQueues(s: State, c: Core)
    requires HandlesWait(s, c) && s.conds[s.stage[c].act.cond].epoch == s.stage[c].act.epoch
    ensures
      var s1, x, me := DoWait(s, c), s.stage[c].act.cond, s.stage[c].me;
      && x in s1.conds && s1.conds[x].epoch == s.conds[x].epoch && s1.ready == s.ready && c in s1.stage
      && s1.conds[x].notifier == s.conds[x].notifier
      && s1.conds[x].queue == s.conds[x].queue + [me] && s1.stage[c] == Run
  {
  }

  lemma WaitPasses(s: State, c: Core)
    requires HandlesWait(s, c) && s.conds[s.stage[c].act.cond].epoch != s.stage[c].act.epoch
    ensures
      var s1, me := DoWait(s, c), s.stage[c].me;
      && s1.conds == s.conds && s1.ready == s.ready && c in s1.stage
      && s1.stage[c].Requeue? && s1.stage[c].x == me
  {
  }

  // ---------- the ready queue ----------

  /** Threads enter the ready queue at its end, one at a time, and the next thread of a core is its head. */
  ghost predicate ReadyMoves(s: State, s': State, st: Step)
    requires Enabled(s, st)
  {
    match st
    case PickReady(c) => c in s'.stage && s'.stage[c].Chosen? && [s'.stage[c].next] + s'.ready == s.ready
    case Deliver(c) => s'.ready == s.ready + [s.carry[s.active[c]]]
    case Schedule(c) => s'.ready == s.ready + [s.stage[c].x]
    case Spawn(_, t) => s'.ready == s.ready + [t]
    case _ => s'.ready == s.ready
  }

  lemma ReadyInOrder(s: State, st: Step)
    requires Enabled(s, st)
    ensures ReadyMoves(s, Do(s, st), st)
  {
    hide Enabled, Do, ReadyMoves;
    if st.HandleStop? || st.HandleDown? || st.HandleWait? || st.HandleYield? {
      HandlersKeepReady(s, st);
    } else if st.PickReady? || st.PickIdle? || st.GiveUp? || st.Activate? || st.Save? || st.Switch? {
      SwitchReady(s, st);
    } else if st.Deliver? || st.Schedule? || st.Spawn? || st.Reap? {
      EntersReady(s, st);
    } else if EntersBlock(st) || st.DownNow? || st.Up? {
      CallsKeepReady(s, st);
    } else {
      NotifyKeepsReady(s, st);
    }
  }

  lemma HandlersKeepReady(s: State, st: Step)
    requires Enabled(s, st) && (st.HandleStop? || st.HandleDown? || st.HandleWait? || st.HandleYield?)
    ensures ReadyMoves(s, Do(s, st), st)
  {
    hide IsIdle, DoStop, DoDown, DoWait, Parked, At;
    match st
    case HandleStop(c) =>
      if IsIdle(s, s.stage[c].me) {
        IdleStops(s, c);
      } else if s.conds[REAPER].queue == [] {
        StopAlone(s, c);
      } else {
        StopTakes(s, c, s.conds[REAPER].queue[0], s.conds[REAPER].queue[1..]);
      }
    case HandleDown(c) => DownMoves(s, c);
    case HandleWait(c) => WaitMoves(s, c);
    case HandleYield(c) => YieldReady(s, c);
  }

  lemma YieldReady(s: State, c: Core)
    requires Enabled(s, HandleYield(c))
    ensures Do(s, HandleYield(c)).ready == s.ready
  {
    hide IsIdle, DoUp, DoDown, DoStop, DoWait, DoNotify, DoDeliver, DoSpawn, DoReap, DoDownBlock, DoSchedule,
      Parked, At;
    ParkedReady(s, c, s.stage[c].me, Resting);
    AtReady(s, c, Requeue(s.stage[c].me, s.stage[c].next));
  }

  lemma ParkedReady(s: State, c: Core, t: Tid, p: Place)
    ensures Parked(s, c, t, p).ready == s.ready
  {
  }

  lemma AtReady(s: State, c: Core, g: Stage)
    ensures At(s, c, g).ready == s.ready
  {
  }

  lemma SwitchReady(s: State, st: Step)
    requires Enabled(s, st)
    requires st.PickReady? || st.PickIdle? || st.GiveUp? || st.Activate? || st.Save? || st.Switch?
    ensures ReadyMoves(s, Do(s, st), st)
  {
    hide IsIdle, DoUp, DoDown, DoStop, DoWait, DoNotify, DoDeliver, DoSpawn, DoReap, DoDownBlock, DoSchedule;
  }

  lemma EntersReady(s: State, st: Step)
    requires Enabled(s, st) && (st.Deliver? || st.Schedule? || st.Spawn? || st.Reap?)
    ensures ReadyMoves(s, Do(s, st), st)
  {
    hide IsIdle, DoUp, DoDown, DoStop, DoWait, DoNotify, DoDownBlock;
  }

  lemma CallsKeepReady(s: State, st: Step)
    requires Enabled(s, st) && (EntersBlock(st) || st.DownNow? || st.Up?)
    ensures ReadyMoves(s, Do(s, st), st)
  {
    hide IsIdle, DoDown, DoStop, DoWait, DoNotify, DoDeliver, DoSpawn, DoReap, DoSchedule;
  }

  lemma NotifyKeepsReady(s: State, st: Step)
    requires Enabled(s, st) && (st.NotifyOne? || st.NotifyAllBegin? || st.NotifyAllTake? || st.NotifyAllEnd?)
    ensures ReadyMoves(s, Do(s, st), st)
  {
    hide IsIdle, DoUp, DoDown, DoStop, DoWait, DoDeliver, DoSpawn, DoReap, DoDownBlock, DoSchedule;
  }

  // ---------- creation and deletion ----------

  /** A new thread is ready, with a context to be switched to. */
  lemma SpawnReadies(s: State, c: Core, t: Tid)
    requires Enabled(s, Spawn(c, t))
    ensures var s' := Do(s, Spawn(c, t)); Readied(s, s', t) && s'.saved == s.saved + {t}
  {
    hide IsIdle;
  }

  /** The oldest zombie goes and leaves nothing behind. */
  lemma ReapDeletes(s: State, c: Core, z: Tid, rest: seq<Tid>)
    requires Enabled(s, Reap(c)) && s.zombies == [z] + rest
    ensures
      var s' := Do(s, Reap(c));
      s'.zombies == rest && s'.place == s.place - {z} && s'.saved == s.saved - {z} && s'.ready == s.ready
  {
    hide IsIdle;
  }

  /** With nobody ready, a thread that can return does so, and another one makes way for the idle thread. */
  lemma NobodyReady(s: State, c: Core)
    requires c in s.stage && c in s.active && c in s.idle && s.stage[c].Choosing? && s.ready == []
    ensures s.stage[c].act.Yield? || s.stage[c].act.Wait? ==>
      Enabled(s, GiveUp(c)) && Do(s, GiveUp(c)) == s.(stage := s.stage[c := Run])
    ensures (s.stage[c].act.Stop? || s.stage[c].act.Down?) && s.active[c] != s.idle[c] ==>
      && Enabled(s, PickIdle(c))
      && Do(s, PickIdle(c)) == s.(stage := s.stage[c := Chosen(s.idle[c], s.stage[c].act)],
                                  place := s.place[s.idle[c] := OnCore(c)])
  {
    hide IsIdle, DoUp, DoDown, DoStop, DoWait, DoNotify, DoDeliver, DoSpawn, DoReap, DoDownBlock, DoSchedule;
  }

  // ---------- a core on its own ----------

  /** The steps can be made one after the other and lead from s to s'. */
  ghost predicate Path(s: State, sts: seq<Step>, s': State)
    decreases sts
  {
    if sts == [] then s' == s else Enabled(s, sts[0]) && Path(Do(s, sts[0]), sts[1..], s')
  }

  lemma PathJoins(s: State, a: seq<Step>, s1: State, b: seq<Step>, s2: State)
    requires Path(s, a, s1) && Path(s1, b, s2)
    ensures Path(s, a + b, s2)
    decreases a
  {
    hide Enabled, Do;
    if a == [] {
      assert a + b == b;
    } else {
      PathJoins(Do(s, a[0]), a[1..], s1, b, s2);
      assert (a + b)[0] == a[0] && (a + b)[1..] == a[1..] + b;
    }
  }

  lemma OneStep(s: State, st: Step)
    requires Enabled(s, st)
    ensures Path(s, [st], Do(s, st))
  {
    hide Enabled, Do;
    assert [st][1..] == [];
  }

  function SwitchSteps(c: Core): seq<Step> {
    [PickReady(c)] + [Activate(c)] + [Save(c)] + [Switch(c)]
  }

  /** block(), for whatever it was called: the head of the ready queue is the active thread, its registers are
      loaded, the caller's are saved, and the action is carried out for the caller. */
  lemma BlockSwitches(s: State, c: Core, a: Action, n: Tid, rest: seq<Tid>) returns (s': State)
    requires c in s.stage && c in s.active && s.stage[c] == Choosing(a) && s.ready == [n] + rest && n != s.active[c]
    ensures Path(s, SwitchSteps(c), s')
    ensures c in s'.stage && s'.stage[c] == Handler(s.active[c], n, a) && c in s'.active && s'.active[c] == n
    ensures s'.ready == rest && s'.saved == s.saved + {s.active[c]} - {n} && s'.idle == s.idle
    ensures s'.place == s.place[n := OnCore(c)]
  {
    hide Enabled, Do, Path;
    var me := s.active[c];
    PickEffect(s, c, a, n, rest);
    var s1 := Do(s, PickReady(c));
    ActivateEffect(s1, c, a, n);
    var s2 := Do(s1, Activate(c));
    SaveEffect(s2, c, a, me, n);
    var s3 := Do(s2, Save(c));
    SwitchEffect(s3, c, a, me, n);
    s' := Do(s3, Switch(c));
    SwitchPath(s, s1, s2, s3, c);
  }

  lemma PickEffect(s: State, c: Core, a: Action, n: Tid, rest: seq<Tid>)
    requires c in s.stage && s.stage[c] == Choosing(a) && s.ready == [n] + rest
    ensures Enabled(s, PickReady(c))
    ensures Do(s, PickReady(c)) ==
      s.(stage := s.stage[c := Chosen(n, a)], ready := rest, place := s.place[n := OnCore(c)])
  {
    hide IsIdle;
  }

  lemma ActivateEffect(s: State, c: Core, a: Action, n: Tid)
    requires c in s.stage && c in s.active && s.stage[c] == Chosen(n, a)
    ensures Enabled(s, Activate(c))
    ensures Do(s, Activate(c)) == s.(stage := s.stage[c := Active(s.active[c], n, a)], active := s.active[c := n])
  {
    hide IsIdle;
  }

  lemma SaveEffect(s: State, c: Core, a: Action, me: Tid, n: Tid)
    requires c in s.stage && s.stage[c] == Active(me, n, a)
    ensures Enabled(s, Save(c))
    ensures Do(s, Save(c)) == s.(stage := s.stage[c := Saved(me, n, a)], saved := s.saved + {me})
  {
    hide IsIdle;
  }

  lemma SwitchEffect(s: State, c: Core, a: Action, me: Tid, n: Tid)
    requires c in s.stage && s.stage[c] == Saved(me, n, a)
    ensures Enabled(s, Switch(c))
    ensures Do(s, Switch(c)) == s.(stage := s.stage[c := Handler(me, n, a)], saved := s.saved - {n})
  {
    hide IsIdle;
  }

  lemma SwitchPath(s: State, s1: State, s2: State, s3: State, c: Core)
    requires Enabled(s, PickReady(c)) && s1 == Do(s, PickReady(c)) && Enabled(s1, Activate(c))
    requires s2 == Do(s1, Activate(c)) && Enabled(s2, Save(c)) && s3 == Do(s2, Save(c)) && Enabled(s3, Switch(c))
    ensures Path(s, SwitchSteps(c), Do(s3, Switch(c)))
  {
    hide Enabled, Do, Path;
    var s4 := Do(s3, Switch(c));
    OneStep(s, PickReady(c));
    OneStep(s1, Activate(c));
    OneStep(s2, Save(c));
    OneStep(s3, Switch(c));
    PathJoins(s, [PickReady(c)], s1, [Activate(c)], s2);
    PathJoins(s, [PickReady(c)] + [Activate(c)], s2, [Save(c)], s3);
    PathJoins(s, [PickReady(c)] + [Activate(c)] + [Save(c)], s3, [Switch(c)], s4);
  }

  function YieldSteps(c: Core): seq<Step> {
    [CallYield(c)] + SwitchSteps(c) + [HandleYield(c)] + [Schedule(c)]
  }

  /** yield: the thread goes to the end of the ready queue and its head runs. */
  lemma YieldSwitches(s: State, c: Core, n: Tid, rest: seq<Tid>) returns (s': State)
    requires Running(s, c) && !IsIdle(s, s.active[c]) && s.ready == [n] + rest && n != s.active[c]
    ensures Path(s, YieldSteps(c), s')
    ensures Running(s', c) && s'.active[c] == n && s'.ready == rest + [s.active[c]]
    ensures s.active[c] in s'.place && s'.place[s.active[c]] == Ready && s.active[c] in s'.saved
    ensures n in s'.place && s'.place[n] == OnCore(c) && n !in s'.saved
  {
    hide IsIdle, Path, SwitchSteps, Do, Enabled;
    var me := s.active[c];
    CallYieldEffect(s, c);
    var s1 := Do(s, CallYield(c));
    OneStep(s, CallYield(c));
    var s2 := BlockSwitches(s1, c, Yield, n, rest);
    PathJoins(s, [CallYield(c)], s1, SwitchSteps(c), s2);
    SameIdle(s, s2, me);
    YieldEffect(s2, c);
    var s3 := Do(s2, HandleYield(c));
    OneStep(s2, HandleYield(c));
    PathJoins(s, [CallYield(c)] + SwitchSteps(c), s2, [HandleYield(c)], s3);
    ScheduleEnabled(s3, c);
    ScheduleReadies(s3, c);
    s' := Do(s3, Schedule(c));
    OneStep(s3, Schedule(c));
    PathJoins(s, [CallYield(c)] + SwitchSteps(c) + [HandleYield(c)], s3, [Schedule(c)], s');
  }

  lemma CallYieldEffect(s: State, c: Core)
    requires Running(s, c)
    ensures Enabled(s, CallYield(c)) && Do(s, CallYield(c)) == s.(stage := s.stage[c := Choosing(Yield)])
  {
    hide IsIdle;
  }

  lemma YieldEffect(s: State, c: Core)
    requires Handling(s, c) && s.stage[c].act == Yield && !IsIdle(s, s.stage[c].me)
    ensures Enabled(s, HandleYield(c))
    ensures Do(s, HandleYield(c)) == s.(stage := s.stage[c := Requeue(s.stage[c].me, s.stage[c].next)])
  {
    hide IsIdle;
  }

  lemma ScheduleEnabled(s: State, c: Core)
    requires c in s.stage && s.stage[c].Requeue?
    ensures Enabled(s, Schedule(c))
  {
    hide IsIdle;
  }

  lemma SameIdle(s: State, s': State, t: Tid)
    requires s'.idle == s.idle
    ensures IsIdle(s', t) <==> IsIdle(s, t)
  {
  }

  // ---------- progress ----------

  /** Why a core cannot make a step of its own: an idle thread that stops finds no other, or a handler waits
      for the lock that a thread inside notifyAll holds. */
  ghost predicate Blocked(s: State, c: Core) {
    c in s.stage && c in s.active && c in s.idle &&
    match s.stage[c]
    case Choosing(a) => a == Stop && s.active[c] == s.idle[c] && s.ready == []
    case Handler(_, _, a) => (a.Stop? && !Unlocked(s, REAPER)) || (a.Wait? && !Unlocked(s, a.cond))
    case _ => false
  }

  ghost predicate CanStep(s: State, c: Core) {
    exists st: Step :: st.c == c && Enabled(s, st)
  }

  /** In all other cases it can. */
  lemma Progress(s: State, c: Core)
    requires Inv(s) && c in s.stage
    ensures CanStep(s, c) <==> !Blocked(s, c)
  {
    hide Inv, IsIdle, Enabled;
    KeysFacts(s);
    CoreFacts(s, c);
    if Blocked(s, c) {
      forall st: Step | st.c == c ensures !Enabled(s, st) {
        BlockedStays(s, c, st);
      }
    } else {
      var st := NextStep(s, c);
      NextEnabled(s, c);
    }
  }

  /** One step that core c can make. */
  ghost function NextStep(s: State, c: Core): (st: Step)
    requires c in s.stage
    ensures st.c == c
  {
    match s.stage[c]
    case Run => CallYield(c)
    case Choosing(a) => if s.ready != [] then PickReady(c) else if OnlyCanReturn(a) then GiveUp(c) else PickIdle(c)
    case Chosen(_, _) => Activate(c)
    case Active(_, _, _) => Save(c)
    case Saved(_, _, _) => Switch(c)
    case Handler(_, _, a) =>
      (match a
       case Yield => HandleYield(c)
       case Stop => HandleStop(c)
       case Down(_) => HandleDown(c)
       case Wait(_, _) => HandleWait(c))
    case Requeue(_, _) => Schedule(c)
  }

  /** A running thread always gets on with what it calls: a down takes a unit if there is one, and an ordinary
      thread may block; up and notify are held up by nothing but a notifyAll; whoever has taken a thread from a
      queue can make it ready; zombies can be deleted as long as there are some. */
  lemma RunningOffers(s: State, c: Core, x: Id)
    requires c in s.stage && c in s.active && s.stage[c].Run?
    ensures Enabled(s, CallYield(c)) && (Enabled(s, Reap(c)) <==> s.zombies != [])
    ensures Enabled(s, Deliver(c)) <==> s.active[c] in s.carry
    ensures s.active[c] !in s.carry ==> Enabled(s, CallStop(c))
    ensures s.active[c] !in s.carry && x in s.sems ==>
      && Enabled(s, Up(c, x)) && (Enabled(s, DownNow(c, x)) <==> s.sems[x].count > 0)
      && (Enabled(s, DownBlock(c, x)) <==> !IsIdle(s, s.active[c]))
    ensures s.active[c] !in s.carry && x in s.conds && s.conds[x].notifier == None ==>
      && Enabled(s, NotifyOne(c, x)) && Enabled(s, NotifyAllBegin(c, x))
      && (IsIdle(s, s.active[c]) || Enabled(s, CallWait(c, x, s.conds[x].epoch)))
    ensures s.active[c] !in s.carry && x in s.conds && s.conds[x].notifier == Some(s.active[c]) ==>
      if s.conds[x].queue == [] then Enabled(s, NotifyAllEnd(c, x)) else Enabled(s, NotifyAllTake(c, x))
  {
    hide IsIdle;
  }

  /** Inside block() and the switch a core has no choice: its next step is determined by where it is. */
  lemma NoChoice(s: State, c: Core, st: Step)
    requires c in s.stage && !s.stage[c].Run? && st.c == c && Enabled(s, st)
    ensures st == NextStep(s, c)
  {
    hide IsIdle;
  }

  lemma NextEnabled(s: State, c: Core)
    requires c in s.stage && c in s.active && c in s.idle && CoreOk(s, c) && IsIdle(s, s.idle[c]) && !Blocked(s, c)
    ensures Enabled(s, NextStep(s, c))
  {
  }

  lemma BlockedStays(s: State, c: Core, st: Step)
    requires c in s.stage && c in s.active && c in s.idle && Blocked(s, c) && st.c == c
    ensures !Enabled(s, st)
  {
    hide IsIdle;
  }
}
