/**
 * Threads, cores and the queues they wait in, as interleaved steps (kernel/threads.h,
 * kernel/threads.cc, kernel/context.S, kernel/semaphore.h, kernel/condition.h). A section of code
 * that runs under a lock is one step; between steps any other core may act.
 */
module Scheduler {
  type Tid = nat
  type Core = nat
  type Id = nat

  /** What block() was called for: the action to run on the next thread's stack. */
  datatype Action = Yield | Stop | Down(sem: Id) | Wait(cond: Id, epoch: nat)

  /** How far a core is in block() and the context switch. From Active on the next thread is the
      active one; Saved is after the registers of the old one are stored; Handler is on the new
      stack; Requeue is about to put x on the ready queue. */
  datatype Stage =
    | Run
    | Choosing(act: Action)
    | Chosen(next: Tid, act: Action)
    | Active(me: Tid, next: Tid, act: Action)
    | Saved(me: Tid, next: Tid, act: Action)
    | Handler(me: Tid, next: Tid, act: Action)
    | Requeue(x: Tid, next: Tid)

  /** A semaphore, with the history of its queue and of the downs and ups made on it. */
  datatype SemState = SemState(
    count: nat, queue: seq<Tid>, initial: nat, ups: nat, grants: nat, asked: nat, added: seq<Tid>, removed: seq<Tid>)

  /** A condition: since is the epoch at which each queued thread entered wait, lastAll the epoch the
      last notifyAll set, notifier the thread that is inside notifyAll and holds the lock. */
  datatype CondState = CondState(
    epoch: nat, queue: seq<Tid>, since: map<Tid, nat>, lastAll: nat, notifier: Maybe)

  datatype Maybe = None | Some(t: Tid)

  /** Where a thread is. */
  datatype Place =
    | OnCore(c: Core) | Ready | SemQ(x: Id) | CondQ(x: Id) | Zombie
    | Carried(u: Tid) // taken from a wait queue by thread u, which is about to schedule it
    | Resting // an idle thread that is not running

  datatype State = State(
    stage: map<Core, Stage>, active: map<Core, Tid>, idle: map<Core, Tid>,
    ready: seq<Tid>, zombies: seq<Tid>, sems: map<Id, SemState>, conds: map<Id, CondState>,
    carry: map<Tid, Tid>, saved: set<Tid>, asking: map<Tid, Id>, place: map<Tid, Place>)

  /** The condition variable of the reaper. */
  const REAPER: Id := 0

  // ---------- the invariant ----------

  ghost predicate IsIdle(s: State, t: Tid) {
    exists c :: c in s.idle && s.idle[c] == t
  }

  ghost predicate OnlyCanReturn(a: Action) {
    a.Yield? || a.Wait?
  }

  /** The thread that called block() on core c. */
  ghost function Caller(s: State, c: Core): Tid
    requires c in s.stage && c in s.active
  {
    match s.stage[c]
    case Active(me, _, _) => me
    case Saved(me, _, _) => me
    case Handler(me, _, _) => me
    case _ => s.active[c]
  }

  ghost predicate Holds(s: State, c: Core, t: Tid)
    requires c in s.stage && c in s.active
  {
    match s.stage[c]
    case Run => t == s.active[c]
    case Choosing(_) => t == s.active[c]
    case Chosen(next, _) => t == s.active[c] || t == next
    case Active(me, next, _) => t == me || t == next
    case Saved(me, next, _) => t == me || t == next
    case Handler(me, next, _) => t == me || t == next
    case Requeue(x, next) => t == x || t == next
  }

  /** The thread whose stack core c is executing on. */
  ghost function StackOf(s: State, c: Core): Tid
    requires c in s.stage && c in s.active
  {
    match s.stage[c]
    case Active(me, _, _) => me
    case Saved(me, _, _) => me
    case _ => s.active[c]
  }

  ghost predicate ActionOk(s: State, t: Tid, a: Action) {
    match a
    case Yield => t !in s.asking
    case Stop => t !in s.asking && t !in s.carry
    case Down(x) => x in s.sems && !IsIdle(s, t) && t !in s.carry && t in s.asking && s.asking[t] == x
    case Wait(x, e) => x in s.conds && !IsIdle(s, t) && t !in s.carry && t !in s.asking && e <= s.conds[x].epoch
  }

  ghost predicate StageOk(s: State, c: Core)
    requires c in s.stage && c in s.active
  {
    && s.active[c] in s.place && s.place[s.active[c]] == OnCore(c)
    && match s.stage[c]
       case Run => s.active[c] !in s.asking
       case Choosing(a) => ActionOk(s, s.active[c], a)
       case Chosen(next, a) =>
         && ActionOk(s, s.active[c], a) && next != s.active[c]
         && next in s.place && s.place[next] == OnCore(c) && next !in s.asking
       case Active(me, next, a) => SwitchingOk(s, c, me, next, a)
       case Saved(me, next, a) => SwitchingOk(s, c, me, next, a)
       case Handler(me, next, a) => SwitchingOk(s, c, me, next, a)
       case Requeue(x, next) =>
         && next == s.active[c] && x != next && x in s.place && s.place[x] == OnCore(c) && !IsIdle(s, x)
         && x !in s.asking && next !in s.asking
  }

  ghost predicate SwitchingOk(s: State, c: Core, me: Tid, next: Tid, a: Action)
    requires c in s.active
  {
    && ActionOk(s, me, a) && me != next && next == s.active[c] && next !in s.asking
    && me in s.place && s.place[me] == OnCore(c)
  }

  ghost predicate CoreOk(s: State, c: Core) {
    && c in s.stage && c in s.active && c in s.idle
    && s.idle[c] in s.place && (s.place[s.idle[c]] == Resting || s.place[s.idle[c]] == OnCore(c))
    && StageOk(s, c)
  }

  /** Every thread is where its place says; registers are saved exactly when it is on no stack. */
  ghost predicate ThreadOk(s: State, t: Tid)
    requires t in s.place
  {
    && match s.place[t]
       case OnCore(c) => c in s.stage && c in s.active && Holds(s, c, t)
       case Ready => t in s.ready
       case SemQ(x) => x in s.sems && t in s.sems[x].queue
       case CondQ(x) => x in s.conds && t in s.conds[x].queue
       case Zombie => t in s.zombies
       case Carried(u) => u in s.carry && s.carry[u] == t
       case Resting => IsIdle(s, t)
  }

  ghost predicate ContextOk(s: State, t: Tid)
    requires t in s.place
  {
    t in s.saved <==>
      match s.place[t]
      case OnCore(c) => c in s.stage && c in s.active &&
          (StackOf(s, c) != t || (s.stage[c].Saved? && s.stage[c].me == t))
      case _ => true
  }

  /** A queue holds, once each, threads whose place says so; none of them is idle. */
  ghost predicate QueueOk(s: State, q: seq<Tid>, p: Place) {
    && (forall k :: 0 <= k < |q| ==> q[k] in s.place && s.place[q[k]] == p && !IsIdle(s, q[k]))
    && (forall j, k :: 0 <= j < k < |q| ==> q[j] != q[k])
  }

  ghost predicate SemOk(s: State, x: Id)
    requires x in s.sems
  {
    var m := s.sems[x];
    && QueueOk(s, m.queue, SemQ(x))
    && (forall k :: 0 <= k < |m.queue| ==> m.queue[k] in s.asking && s.asking[m.queue[k]] == x)
    && (m.count > 0 ==> m.queue == [])
    && m.initial + m.ups == m.count + m.grants
    && m.added == m.removed + m.queue
    && m.asked == m.grants + |Askers(s.asking, x)|
  }

  ghost function Askers(asking: map<Tid, Id>, x: Id): set<Tid> {
    set t | t in asking && asking[t] == x
  }

  ghost predicate CondOk(s: State, x: Id)
    requires x in s.conds
  {
    var m := s.conds[x];
    && QueueOk(s, m.queue, CondQ(x))
    && m.lastAll <= m.epoch
    && (forall k :: 0 <= k < |m.queue| ==>
        && m.queue[k] !in s.asking && m.queue[k] in m.since && m.since[m.queue[k]] <= m.epoch
        && (m.notifier.None? ==> m.lastAll <= m.since[m.queue[k]]))
    && (m.notifier.Some? ==> m.lastAll == m.epoch)
  }

  /** A thread that has taken another from a wait queue is running or was preempted. */
  ghost predicate CarryOk(s: State, u: Tid)
    requires u in s.carry
  {
    && u in s.place && (s.place[u].OnCore? || s.place[u].Ready? || s.place[u].Resting?)
    && s.carry[u] in s.place && s.place[s.carry[u]] == Carried(u) && !IsIdle(s, s.carry[u]) && s.carry[u] !in s.asking
  }

  /** A thread that waits for a grant is on its way into the queue or in it. */
  ghost predicate AskOk(s: State, t: Tid)
    requires t in s.asking
  {
    && t in s.place && s.asking[t] in s.sems && !IsIdle(s, t)
    && match s.place[t]
       case SemQ(x) => x == s.asking[t]
       case OnCore(c) =>
         c in s.stage && c in s.active && Caller(s, c) == t &&
         (|| s.stage[c].Choosing? || s.stage[c].Chosen? || s.stage[c].Active?
          || s.stage[c].Saved? || s.stage[c].Handler?) &&
         s.stage[c].act == Down(s.asking[t])
       case _ => false
  }

  ghost predicate Inv(s: State) {
    && s.active.Keys == s.stage.Keys && s.idle.Keys == s.stage.Keys && REAPER in s.conds
    && (forall c :: c in s.stage ==> CoreOk(s, c))
    && (forall c, d :: c in s.idle && d in s.idle && c != d ==> s.idle[c] != s.idle[d])
    && (forall t :: t in s.place ==> ThreadOk(s, t))
    && (forall t :: t in s.place ==> ContextOk(s, t))
    && (forall t :: t in s.saved ==> t in s.place)
    && QueueOk(s, s.ready, Ready) && (forall k :: 0 <= k < |s.ready| ==> s.ready[k] !in s.asking)
    && QueueOk(s, s.zombies, Zombie)
    && (forall k :: 0 <= k < |s.zombies| ==> s.zombies[k] !in s.asking && s.zombies[k] !in s.carry)
    && (forall x :: x in s.sems ==> SemOk(s, x))
    && (forall x :: x in s.conds ==> CondOk(s, x))
    && (forall u :: u in s.carry ==> CarryOk(s, u))
    && (forall t :: t in s.asking ==> AskOk(s, t))
  }

  // ---------- the steps ----------

  ghost predicate Running(s: State, c: Core) {
    c in s.stage && c in s.active && s.stage[c].Run?
  }

  ghost predicate Free(s: State, c: Core) {
    Running(s, c) && s.active[c] !in s.carry
  }

  ghost function At(s: State, c: Core, g: Stage): State {
    s.(stage := s.stage[c := g])
  }

  datatype Step =
    | CallYield(c: Core) // also what the timer interrupt does
    | CallStop(c: Core)
    | DownNow(c: Core, x: Id)
    | DownBlock(c: Core, x: Id) // the count was zero under the lock, the thread may have been preempted since
    | Up(c: Core, x: Id)
    | Deliver(c: Core)
    | CallWait(c: Core, x: Id, e: nat) // the epoch was e under the lock, maybe some time ago
    | NotifyOne(c: Core, x: Id)
    | NotifyAllBegin(c: Core, x: Id)
    | NotifyAllTake(c: Core, x: Id)
    | NotifyAllEnd(c: Core, x: Id)
    | Spawn(c: Core, t: Tid)
    | Reap(c: Core)
    | PickReady(c: Core)
    | PickIdle(c: Core)
    | GiveUp(c: Core)
    | Activate(c: Core)
    | Save(c: Core)
    | Switch(c: Core)
    | HandleYield(c: Core)
    | HandleStop(c: Core)
    | HandleDown(c: Core)
    | HandleWait(c: Core)
    | Schedule(c: Core)

  ghost predicate Handling(s: State, c: Core) {
    c in s.stage && c in s.active && s.stage[c].Handler?
  }

  ghost predicate Unlocked(s: State, x: Id) {
    x in s.conds && s.conds[x].notifier.None?
  }

  ghost predicate NotifierIs(s: State, c: Core, x: Id) {
    Running(s, c) && x in s.conds && s.conds[x].notifier == Some(s.active[c])
  }

  ghost predicate CanUp(s: State, c: Core, x: Id) {
    Free(s, c) && x in s.sems
  }

  ghost predicate Delivering(s: State, c: Core) {
    Running(s, c) && s.active[c] in s.carry
  }

  ghost predicate Requeueing(s: State, c: Core) {
    c in s.stage && s.stage[c].Requeue?
  }

  ghost predicate HandlesStop(s: State, c: Core) {
    Handling(s, c) && s.stage[c].act.Stop? && Unlocked(s, REAPER)
  }

  ghost predicate HandlesDown(s: State, c: Core) {
    Handling(s, c) && s.stage[c].act.Down? && s.stage[c].act.sem in s.sems
  }

  ghost predicate HandlesWait(s: State, c: Core) {
    Handling(s, c) && s.stage[c].act.Wait? && Unlocked(s, s.stage[c].act.cond)
  }

  ghost predicate Enabled(s: State, st: Step) {
    match st
    case CallYield(c) => Running(s, c)
    case CallStop(c) => Free(s, c)
    case DownNow(c, x) => Free(s, c) && x in s.sems && s.sems[x].count > 0
    case DownBlock(c, x) => CanUp(s, c, x) && !IsIdle(s, s.active[c])
    case Up(c, x) => CanUp(s, c, x)
    case Deliver(c) => Delivering(s, c)
    case CallWait(c, x, e) => Free(s, c) && x in s.conds && e <= s.conds[x].epoch && !IsIdle(s, s.active[c])
    case NotifyOne(c, x) => Free(s, c) && Unlocked(s, x)
    case NotifyAllBegin(c, x) => Free(s, c) && Unlocked(s, x)
    case NotifyAllTake(c, x) => Free(s, c) && NotifierIs(s, c, x) && s.conds[x].queue != []
    case NotifyAllEnd(c, x) => Free(s, c) && NotifierIs(s, c, x) && s.conds[x].queue == []
    case Spawn(c, t) => Running(s, c) && t !in s.place && t !in s.carry && t !in s.asking
    case Reap(c) => Running(s, c) && s.zombies != []
    case PickReady(c) => c in s.stage && s.stage[c].Choosing? && s.ready != []
    case PickIdle(c) =>
      && c in s.stage && c in s.active && c in s.idle && s.stage[c].Choosing? && s.ready == []
      && !OnlyCanReturn(s.stage[c].act) && s.active[c] != s.idle[c]
    case GiveUp(c) => c in s.stage && s.stage[c].Choosing? && s.ready == [] && OnlyCanReturn(s.stage[c].act)
    case Activate(c) => c in s.stage && c in s.active && s.stage[c].Chosen?
    case Save(c) => c in s.stage && s.stage[c].Active?
    case Switch(c) => c in s.stage && s.stage[c].Saved?
    case HandleYield(c) => Handling(s, c) && s.stage[c].act.Yield?
    case HandleStop(c) => HandlesStop(s, c)
    case HandleDown(c) => HandlesDown(s, c)
    case HandleWait(c) => HandlesWait(s, c)
    case Schedule(c) => Requeueing(s, c)
  }

  /** The core puts x, which it holds, on the ready queue. */
  ghost function Scheduled(s: State, t: Tid): State {
    s.(ready := s.ready + [t], place := s.place[t := Ready])
  }

  /** The head of a wait queue is now in the hands of thread u. */
  ghost function Carrying(s: State, u: Tid, w: Tid): State {
    s.(carry := s.carry[u := w], place := s.place[w := Carried(u)])
  }

  ghost function Do(s: State, st: Step): State
    requires Enabled(s, st)
  {
    match st
    case CallYield(c) => At(s, c, Choosing(Yield))
    case CallStop(c) => At(s, c, Choosing(Stop))
    case DownNow(c, x) =>
      var m := s.sems[x];
      s.(sems := s.sems[x := m.(count := m.count - 1, grants := m.grants + 1, asked := m.asked + 1)])
    case DownBlock(c, x) => DoDownBlock(s, c, x)
    case Up(c, x) => DoUp(s, c, x)
    case Deliver(c) => DoDeliver(s, s.active[c])
    case CallWait(c, x, e) => At(s, c, Choosing(Wait(x, e)))
    case NotifyOne(c, x) => DoNotify(s, c, x, s.conds[x].epoch + 1)
    case NotifyAllBegin(c, x) =>
      var m := s.conds[x];
      s.(conds := s.conds[x := m.(epoch := m.epoch + 1, lastAll := m.epoch + 1, notifier := Some(s.active[c]))])
    case NotifyAllTake(c, x) => DoNotify(s, c, x, s.conds[x].epoch)
    case NotifyAllEnd(c, x) => s.(conds := s.conds[x := s.conds[x].(notifier := None)])
    case Spawn(c, t) => DoSpawn(s, t)
    case Reap(c) => DoReap(s)
    case PickReady(c) => Picked(s, c, s.ready[0]).(ready := s.ready[1..])
    case PickIdle(c) => Picked(s, c, s.idle[c])
    case GiveUp(c) => At(s, c, Run)
    case Activate(c) =>
      At(s, c, Active(s.active[c], s.stage[c].next, s.stage[c].act)).(active := s.active[c := s.stage[c].next])
    case Save(c) => At(s, c, Saved(s.stage[c].me, s.stage[c].next, s.stage[c].act)).(saved := s.saved + {s.stage[c].me})
    case Switch(c) =>
      At(s, c, Handler(s.stage[c].me, s.stage[c].next, s.stage[c].act)).(saved := s.saved - {s.stage[c].next})
    case HandleYield(c) =>
      if IsIdle(s, s.stage[c].me) then Parked(s, c, s.stage[c].me, Resting)
      else At(s, c, Requeue(s.stage[c].me, s.stage[c].next))
    case HandleStop(c) => DoStop(s, c)
    case HandleDown(c) => DoDown(s, c)
    case HandleWait(c) => DoWait(s, c)
    case Schedule(c) => DoSchedule(s, c)
  }

  /** Core c lets go of t, which goes to p, and runs on. */
  ghost function Parked(s: State, c: Core, t: Tid, p: Place): State {
    At(s, c, Run).(place := s.place[t := p])
  }

  ghost function Picked(s: State, c: Core, t: Tid): State
    requires c in s.stage && s.stage[c].Choosing?
  {
    At(s, c, Chosen(t, s.stage[c].act)).(place := s.place[t := OnCore(c)])
  }

  ghost function DoDeliver(s: State, u: Tid): State
    requires u in s.carry
  {
    Scheduled(s, s.carry[u]).(carry := s.carry - {u})
  }

  ghost function DoSchedule(s: State, c: Core): State
    requires Requeueing(s, c)
  {
    At(Scheduled(s, s.stage[c].x), c, Run)
  }

  /** A new thread, whose stack is prepared so that it can be switched to. */
  ghost function DoSpawn(s: State, t: Tid): State {
    Scheduled(s, t).(saved := s.saved + {t})
  }

  /** A zombie is deleted. */
  ghost function DoReap(s: State): State
    requires s.zombies != []
  {
    s.(zombies := s.zombies[1..], saved := s.saved - {s.zombies[0]}, place := s.place - {s.zombies[0]})
  }

  /** down, after the count was seen to be zero: block() is called with the action to queue or go on. */
  ghost function DoDownBlock(s: State, c: Core, x: Id): State
    requires CanUp(s, c, x)
  {
    At(s, c, Choosing(Down(x))).(
      sems := s.sems[x := s.sems[x].(asked := s.sems[x].asked + 1)], asking := s.asking[s.active[c] := x])
  }

  /** up: a waiting thread gets the unit, else the count rises. */
  ghost function DoUp(s: State, c: Core, x: Id): State
    requires CanUp(s, c, x)
  {
    var m := s.sems[x];
    if m.queue == [] then
      s.(sems := s.sems[x := m.(count := m.count + 1, ups := m.ups + 1)])
    else
      var w := m.queue[0];
      Carrying(s, s.active[c], w).(
        sems := s.sems[x := m.(queue := m.queue[1..], ups := m.ups + 1, grants := m.grants + 1,
                             removed := m.removed + [w])],
        asking := s.asking - {w})
  }

  /** notify: the epoch is e from now on, and the head of the queue, if any, is taken. */
  ghost function DoNotify(s: State, c: Core, x: Id, e: nat): State
    requires c in s.active && x in s.conds
  {
    var m := s.conds[x];
    if m.queue == [] then
      s.(conds := s.conds[x := m.(epoch := e)])
    else
      var w := m.queue[0];
      Carrying(s, s.active[c], w).(conds := s.conds[x := m.(epoch := e, queue := m.queue[1..], since := m.since - {w})])
  }

  /** The handler of stop: an idle thread rests; another becomes a zombie and the reaper is notified. */
  ghost function DoStop(s: State, c: Core): State
    requires HandlesStop(s, c)
  {
    var me, m := s.stage[c].me, s.conds[REAPER];
    if IsIdle(s, me) then Parked(s, c, me, Resting)
    else
      var s1 := Buried(s, c, me);
      if m.queue == [] then s1 else Woken(s1, c, REAPER)
  }

  ghost function Buried(s: State, c: Core, me: Tid): State
    requires REAPER in s.conds
  {
    Parked(s, c, me, Zombie).(
      zombies := s.zombies + [me], conds := s.conds[REAPER := s.conds[REAPER].(epoch := s.conds[REAPER].epoch + 1)])
  }

  /** The head of condition x's queue is about to be put on the ready queue by core c. */
  ghost function Woken(s: State, c: Core, x: Id): State
    requires x in s.conds && s.conds[x].queue != [] && c in s.active
  {
    var m := s.conds[x];
    At(s, c, Requeue(m.queue[0], s.active[c])).(
      place := s.place[m.queue[0] := OnCore(c)],
      conds := s.conds[x := m.(queue := m.queue[1..], since := m.since - {m.queue[0]})])
  }

  /** The handler of down looks at the count again. */
  ghost function DoDown(s: State, c: Core): State
    requires HandlesDown(s, c)
  {
    var me, next, x := s.stage[c].me, s.stage[c].next, s.stage[c].act.sem;
    var m := s.sems[x];
    if m.count > 0 then
      At(s, c, Requeue(me, next)).(
        sems := s.sems[x := m.(count := m.count - 1, grants := m.grants + 1)], asking := s.asking - {me})
    else
      Parked(s, c, me, SemQ(x)).(sems := s.sems[x := m.(queue := m.queue + [me], added := m.added + [me])])
  }

  /** The handler of wait compares epochs. */
  ghost function DoWait(s: State, c: Core): State
    requires HandlesWait(s, c)
  {
    var me, next, x, e := s.stage[c].me, s.stage[c].next, s.stage[c].act.cond, s.stage[c].act.epoch;
    var m := s.conds[x];
    if m.epoch == e then
      Parked(s, c, me, CondQ(x)).(conds := s.conds[x := m.(queue := m.queue + [me], since := m.since[me := e])])
    else
      At(s, c, Requeue(me, next))
  }
}
