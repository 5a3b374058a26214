/** What each step of Scheduler may change, and how its core goes through block() and the switch. */
module SchedulerFrames {
  import opened Scheduler

  /** The parts of the state that a step may write: the stage and the active thread of its core, the
      semaphores with the threads that wait for a grant, the conditions, and the zombies. */
  datatype Fields = Fields(stage: bool, sems: bool, conds: bool, zombies: bool)

  const STAGE := Fields(true, false, false, false)
  const NONE := Fields(false, false, false, false)
  const STOPPING := Fields(true, false, true, true)

  function Writes(st: Step): Fields {
    match st
    case DownNow(_, _) => Fields(false, true, false, false)
    case Up(_, _) => Fields(false, true, false, false)
    case DownBlock(_, _) => Fields(true, true, false, false)
    case HandleDown(_) => Fields(true, true, false, false)
    case NotifyOne(_, _) => Fields(false, false, true, false)
    case NotifyAllBegin(_, _) => Fields(false, false, true, false)
    case NotifyAllTake(_, _) => Fields(false, false, true, false)
    case NotifyAllEnd(_, _) => Fields(false, false, true, false)
    case HandleStop(_) => STOPPING
    case HandleWait(_) => Fields(true, false, true, false)
    case Deliver(_) => NONE
    case Spawn(_, _) => NONE
    case Reap(_) => Fields(false, false, false, true)
    case _ => STAGE
  }

  ghost predicate OnlyAt<V>(m: map<Core, V>, m': map<Core, V>, c: Core) {
    m'.Keys == m.Keys && forall d :: d in m && d != c ==> m'[d] == m[d]
  }

  /** Nothing but w was written; cores other than c stay at their stage with their active thread. */
  ghost predicate Frame(s: State, s': State, c: Core, w: Fields) {
    && s'.idle == s.idle
    && (if w.stage then OnlyAt(s.stage, s'.stage, c) && OnlyAt(s.active, s'.active, c)
        else s'.stage == s.stage && s'.active == s.active)
    && (w.sems || (s'.sems == s.sems && s'.asking == s.asking))
    && (w.conds || s'.conds == s.conds)
    && (w.zombies || s'.zombies == s.zombies)
  }

  predicate EntersBlock(st: Step) {
    st.CallYield? || st.CallStop? || st.DownBlock? || st.CallWait?
  }

  /** What block() is called for. */
  function ActionOf(st: Step): Action
    requires EntersBlock(st)
  {
    match st
    case CallStop(_) => Stop
    case DownBlock(_, x) => Down(x)
    case CallWait(_, x, e) => Wait(x, e)
    case CallYield(_) => Yield
  }

  /** Core c goes from one stage to the next in the order of the code, with the same action throughout. */
  ghost predicate OwnStage(s: State, s': State, st: Step)
    requires st.c in s.stage && st.c in s.active && st.c in s'.stage && st.c in s'.active
  {
    var c := st.c;
    var g, g' := s.stage[c], s'.stage[c];
    (if st.Activate? then g.Chosen? && s'.active[c] == g.next else s'.active[c] == s.active[c]) &&
    if EntersBlock(st) then g.Run? && g' == Choosing(ActionOf(st))
    else
      match g
      case Run => g'.Run?
      case Choosing(a) => if st.GiveUp? then g'.Run? else g'.Chosen? && g'.act == a
      case Chosen(next, a) => st.Activate? && g' == Active(s.active[c], next, a)
      case Active(me, next, a) => g' == Saved(me, next, a)
      case Saved(me, next, a) => st.Switch? && g' == Handler(me, next, a)
      case Handler(_, _, _) => g'.Run? || g'.Requeue?
      case Requeue(_, _) => g'.Run?
  }

  ghost predicate Changes(s: State, s': State, st: Step) {
    && Frame(s, s', st.c, Writes(st))
    && st.c in s.stage && st.c in s.active && st.c in s'.stage && st.c in s'.active && OwnStage(s, s', st)
  }

  /** Every step keeps to its frame and takes its core from one stage to the next. */
  lemma StepChanges(s: State, st: Step)
    requires s.active.Keys == s.stage.Keys && Enabled(s, st)
    ensures Changes(s, Do(s, st), st)
  {
    hide Enabled, Do, Changes;
    if EntersBlock(st) {
      CallChanges(s, st);
    } else if st.HandleStop? || st.HandleDown? || st.HandleWait? || st.HandleYield? {
      HandlerChanges(s, st);
    } else if Writes(st).stage {
      SwitchChanges(s, st);
    } else {
      OtherChanges(s, st);
    }
  }

  lemma CallChanges(s: State, st: Step)
    requires s.active.Keys == s.stage.Keys && Enabled(s, st) && EntersBlock(st)
    ensures Changes(s, Do(s, st), st)
  {
    hide IsIdle;
  }

  /** The steps inside block() and the context switch. */
  lemma SwitchChanges(s: State, st: Step)
    requires s.active.Keys == s.stage.Keys && Enabled(s, st) && Writes(st).stage && !EntersBlock(st)
    requires !st.HandleStop? && !st.HandleDown? && !st.HandleWait? && !st.HandleYield?
    ensures Changes(s, Do(s, st), st)
  {
    hide Enabled, Do, Changes;
    if st.PickReady? || st.PickIdle? || st.GiveUp? {
      ChoiceChanges(s, st);
    } else if st.Activate? {
      ActivateChanges(s, st.c);
    } else if st.Schedule? {
      ScheduleChanges(s, st.c);
    } else {
      SaveChanges(s, st);
    }
  }

  lemma ChoiceChanges(s: State, st: Step)
    requires s.active.Keys == s.stage.Keys && Enabled(s, st) && (st.PickReady? || st.PickIdle? || st.GiveUp?)
    ensures Changes(s, Do(s, st), st)
  {
    hide IsIdle, DoUp, DoDown, DoStop, DoWait, DoNotify, DoDeliver, DoSpawn, DoReap, DoDownBlock, DoSchedule;
  }

  lemma SaveChanges(s: State, st: Step)
    requires s.active.Keys == s.stage.Keys && Enabled(s, st) && (st.Save? || st.Switch?)
    ensures Changes(s, Do(s, st), st)
  {
    hide IsIdle, DoUp, DoDown, DoStop, DoWait, DoNotify, DoDeliver, DoSpawn, DoReap, DoDownBlock, DoSchedule;
  }

  lemma ActivateChanges(s: State, c: Core)
    requires s.active.Keys == s.stage.Keys && Enabled(s, Activate(c))
    ensures Changes(s, Do(s, Activate(c)), Activate(c))
  {
    hide IsIdle, DoUp, DoDown, DoStop, DoWait, DoNotify, DoDeliver, DoSpawn, DoReap, DoDownBlock, DoSchedule;
  }

  lemma ScheduleChanges(s: State, c: Core)
    requires s.active.Keys == s.stage.Keys && Enabled(s, Schedule(c))
    ensures Changes(s, Do(s, Schedule(c)), Schedule(c))
  {
    hide IsIdle, DoUp, DoDown, DoStop, DoWait, DoNotify, DoDeliver, DoSpawn, DoReap, DoDownBlock;
  }

  /** A running thread that does not call block() runs on. */
  lemma OtherChanges(s: State, st: Step)
    requires s.active.Keys == s.stage.Keys && Enabled(s, st) && !Writes(st).stage
    ensures Changes(s, Do(s, st), st)
  {
    hide IsIdle, DoDown, DoStop, DoWait, DoUp, DoNotify, DoDeliver, DoSpawn, DoReap, Frame;
    var s' := Do(s, st);
    match st {
      case Up(c, x) => UpFrame(s, c, x);
      case NotifyOne(c, x) => NotifyFrame(s, c, x, s.conds[x].epoch + 1);
      case NotifyAllTake(c, x) => NotifyFrame(s, c, x, s.conds[x].epoch);
      case Deliver(c) => DeliverFrame(s, c, s.active[c]);
      case Spawn(c, t) => SpawnFrame(s, c, t);
      case Reap(c) => ReapFrame(s, c);
      case _ => InPlaceFrame(s, st);
    }
    StandsStill(s, s', st);
  }

  lemma InPlaceFrame(s: State, st: Step)
    requires Enabled(s, st) && (st.DownNow? || st.NotifyAllBegin? || st.NotifyAllEnd?)
    ensures Frame(s, Do(s, st), st.c, Writes(st))
  {
    hide IsIdle;
  }

  lemma StandsStill(s: State, s': State, st: Step)
    requires Running(s, st.c) && !Writes(st).stage && Frame(s, s', st.c, Writes(st))
    ensures Changes(s, s', st)
  {
  }

  lemma UpFrame(s: State, c: Core, x: Id)
    requires CanUp(s, c, x)
    ensures Frame(s, DoUp(s, c, x), c, Fields(false, true, false, false))
  {
    hide IsIdle;
  }

  lemma NotifyFrame(s: State, c: Core, x: Id, e: nat)
    requires c in s.active && x in s.conds
    ensures Frame(s, DoNotify(s, c, x, e), c, Fields(false, false, true, false))
  {
    hide IsIdle;
  }

  lemma DeliverFrame(s: State, c: Core, u: Tid)
    requires u in s.carry
    ensures Frame(s, DoDeliver(s, u), c, NONE)
  {
  }

  lemma SpawnFrame(s: State, c: Core, t: Tid)
    ensures Frame(s, DoSpawn(s, t), c, NONE)
  {
  }

  lemma ReapFrame(s: State, c: Core)
    requires s.zombies != []
    ensures Frame(s, DoReap(s), c, Fields(false, false, false, true))
  {
  }

  // ---------- the handlers ----------

  /** The handler on core c is over. */
  ghost predicate Handled(s: State, s': State, c: Core, w: Fields) {
    Frame(s, s', c, w) && s'.active == s.active && c in s'.stage && (s'.stage[c].Run? || s'.stage[c].Requeue?)
  }

  lemma HandlerChanges(s: State, st: Step)
    requires s.active.Keys == s.stage.Keys && Enabled(s, st)
    requires st.HandleStop? || st.HandleDown? || st.HandleWait? || st.HandleYield?
    ensures Changes(s, Do(s, st), st)
  {
    hide IsIdle, DoDown, DoStop, DoWait, Parked, At, Changes, Handled;
    match st {
      case HandleStop(c) => StopHandled(s, c);
      case HandleDown(c) => DownHandled(s, c);
      case HandleWait(c) => WaitHandled(s, c);
      case HandleYield(c) =>
        ParkedHandled(s, c, s.stage[c].me, Resting);
        RequeueHandled(s, c, s.stage[c].me, s.stage[c].next);
    }
    HandledChanges(s, Do(s, st), st);
  }

  lemma HandledChanges(s: State, s': State, st: Step)
    requires s.active.Keys == s.stage.Keys && Handling(s, st.c) && !EntersBlock(st) && !st.Activate?
    requires Handled(s, s', st.c, Writes(st))
    ensures Changes(s, s', st)
  {
  }

  lemma ParkedHandled(s: State, c: Core, t: Tid, p: Place)
    requires c in s.stage
    ensures Handled(s, Parked(s, c, t, p), c, STAGE)
  {
  }

  lemma RequeueHandled(s: State, c: Core, x: Tid, next: Tid)
    requires c in s.stage
    ensures Handled(s, At(s, c, Requeue(x, next)), c, STAGE)
  {
  }

  lemma StopHandled(s: State, c: Core)
    requires HandlesStop(s, c)
    ensures Handled(s, DoStop(s, c), c, STOPPING)
  {
    hide IsIdle, Parked, Buried, Woken;
    var me := s.stage[c].me;
    ParkedHandled(s, c, me, Resting);
    BuriedHandled(s, c, me);
    if s.conds[REAPER].queue != [] {
      WokenHandled(Buried(s, c, me), c);
    }
  }

  lemma BuriedHandled(s: State, c: Core, me: Tid)
    requires REAPER in s.conds && c in s.stage
    ensures Handled(s, Buried(s, c, me), c, STOPPING) && REAPER in Buried(s, c, me).conds
    ensures Buried(s, c, me).conds[REAPER].queue == s.conds[REAPER].queue
  {
  }

  lemma WokenHandled(s: State, c: Core)
    requires REAPER in s.conds && s.conds[REAPER].queue != [] && c in s.active && c in s.stage
    ensures Handled(s, Woken(s, c, REAPER), c, Fields(true, false, true, false))
  {
  }

  lemma DownHandled(s: State, c: Core)
    requires HandlesDown(s, c)
    ensures Handled(s, DoDown(s, c), c, Fields(true, true, false, false))
  {
    hide IsIdle;
  }

  lemma WaitHandled(s: State, c: Core)
    requires HandlesWait(s, c)
    ensures Handled(s, DoWait(s, c), c, Fields(true, false, true, false))
  {
    hide IsIdle;
  }

  // ---------- threads inside wait ----------

  /** Core c is inside the wait on condition x that read epoch e. */
  ghost predicate WaitsAt(s: State, c: Core, x: Id, e: nat) {
    c in s.stage && c in s.active && !s.stage[c].Run? && !s.stage[c].Requeue? && s.stage[c].act == Wait(x, e)
  }

  /** A core that is inside wait after a step was there before, for the same thread, unless it just called wait. */
  lemma WaitedBefore(s: State, s': State, st: Step, d: Core, x: Id, e: nat)
    requires Changes(s, s', st) && WaitsAt(s', d, x, e)
    ensures (st.CallWait? && st == CallWait(d, x, e)) || (WaitsAt(s, d, x, e) && Caller(s', d) == Caller(s, d))
  {
  }

  /** The steps that touch condition x. */
  ghost predicate Touches(s: State, st: Step, x: Id) {
    match st
    case NotifyOne(_, y) => y == x
    case NotifyAllBegin(_, y) => y == x
    case NotifyAllTake(_, y) => y == x
    case NotifyAllEnd(_, y) => y == x
    case HandleWait(c) => HandlesWaitOn(s, c, x)
    case HandleStop(c) => x == REAPER
    case _ => false
  }

  ghost predicate HandlesWaitOn(s: State, c: Core, x: Id) {
    HandlesWait(s, c) && s.stage[c].act.cond == x
  }

  /** A step that does not touch a condition leaves it as it is. */
  lemma Untouched(s: State, st: Step, x: Id)
    requires Enabled(s, st) && s.active.Keys == s.stage.Keys && !Touches(s, st, x) && x in s.conds
    ensures x in Do(s, st).conds && Do(s, st).conds[x] == s.conds[x]
  {
    hide Enabled, Do, OwnStage;
    if st.HandleStop? {
      StopUntouched(s, st.c, x);
    } else if Writes(st).conds {
      OtherCondition(s, st, x);
    } else {
      StepChanges(s, st);
    }
  }

  lemma StopUntouched(s: State, c: Core, x: Id)
    requires Enabled(s, HandleStop(c)) && x != REAPER && x in s.conds
    ensures var s' := Do(s, HandleStop(c)); x in s'.conds && s'.conds[x] == s.conds[x]
  {
    hide IsIdle, Buried, Woken;
    BuriedUntouched(s, c, s.stage[c].me, x);
    if s.conds[REAPER].queue != [] {
      WokenUntouched(Buried(s, c, s.stage[c].me), c, x);
    }
  }

  lemma BuriedUntouched(s: State, c: Core, me: Tid, x: Id)
    requires x != REAPER && REAPER in s.conds && x in s.conds && c in s.active
    ensures
      var s' := Buried(s, c, me);
      && REAPER in s'.conds && x in s'.conds && s'.conds[x] == s.conds[x] && c in s'.active
      && s'.conds[REAPER].queue == s.conds[REAPER].queue
  {
  }

  lemma WokenUntouched(s: State, c: Core, x: Id)
    requires x != REAPER && REAPER in s.conds && s.conds[REAPER].queue != [] && x in s.conds && c in s.active
    ensures var s' := Woken(s, c, REAPER); x in s'.conds && s'.conds[x] == s.conds[x]
  {
  }

  lemma OtherCondition(s: State, st: Step, x: Id)
    requires Enabled(s, st) && !Touches(s, st, x) && x in s.conds && Writes(st).conds && !st.HandleStop?
    ensures x in Do(s, st).conds && Do(s, st).conds[x] == s.conds[x]
  {
    hide IsIdle, DoWait, DoNotify;
    match st
    case NotifyOne(c, y) => OtherNotified(s, c, y, s.conds[y].epoch + 1, x);
    case NotifyAllBegin(_, _) =>
    case NotifyAllTake(c, y) => OtherNotified(s, c, y, s.conds[y].epoch, x);
    case NotifyAllEnd(_, _) =>
    case HandleWait(c) => OtherHandled(s, c, x);
  }

  lemma OtherNotified(s: State, c: Core, y: Id, e: nat, x: Id)
    requires c in s.active && y in s.conds && y != x && x in s.conds
    ensures var s' := DoNotify(s, c, y, e); x in s'.conds && s'.conds[x] == s.conds[x]
  {
  }

  lemma OtherHandled(s: State, c: Core, x: Id)
    requires HandlesWait(s, c) && !HandlesWaitOn(s, c, x) && x in s.conds
    ensures var s' := DoWait(s, c); x in s'.conds && s'.conds[x] == s.conds[x]
  {
  }
}
