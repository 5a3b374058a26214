/** Every step of Scheduler keeps its invariant. */
module SchedulerSteps {
  import opened Scheduler

  // ---------- what a step leaves alone ----------

  /** Thread t is as it was. */
  ghost predicate SameThread(s: State, s': State, t: Tid) {
    && (t in s.place <==> t in s'.place) && (t in s.place ==> s'.place[t] == s.place[t])
    && (t in s.saved <==> t in s'.saved)
    && (t in s.asking <==> t in s'.asking) && (t in s.asking ==> s'.asking[t] == s.asking[t])
    && (t in s.carry <==> t in s'.carry) && (t in s.carry ==> s'.carry[t] == s.carry[t])
  }

  ghost predicate SameCore(s: State, s': State, d: Core) {
    && (d in s.stage <==> d in s'.stage) && (d in s.stage ==> s'.stage[d] == s.stage[d])
    && (d in s.active <==> d in s'.active) && (d in s.active ==> s'.active[d] == s.active[d])
  }

  /** The places a thread touched by a step on core c, semaphores sx and conditions cx can be in. */
  ghost predicate Nearby(p: Place, c: Core, sx: set<Id>, cx: set<Id>) {
    match p
    case OnCore(d) => d == c
    case SemQ(x) => x in sx
    case CondQ(x) => x in cx
    case _ => true
  }

  /** The step concerns core c, the threads T (among them all that c holds), semaphores sx, conditions cx. */
  ghost predicate Local(s: State, s': State, c: Core, T: set<Tid>, sx: set<Id>, cx: set<Id>) {
    && s'.idle == s.idle && s'.stage.Keys == s.stage.Keys && s'.active.Keys == s.active.Keys && c in s.stage
    && (forall d :: d != c ==> SameCore(s, s', d))
    && (forall t :: t !in T ==> SameThread(s, s', t))
    && (forall t :: t in T && t in s.place ==> Nearby(s.place[t], c, sx, cx))
    && (forall t :: t in s.place && s.place[t] == OnCore(c) ==> t in T)
    && (forall d :: d in s.idle && d != c ==> s.idle[d] !in T)
    && (forall u :: u in T && u in s.carry ==> s.carry[u] in T || (u in s'.carry && s'.carry[u] == s.carry[u]))
    && (forall x :: x in s.sems <==> x in s'.sems)
    && (forall x :: x in s.sems && x !in sx ==> s'.sems[x] == s.sems[x])
    && (forall x :: x in s.conds <==> x in s'.conds)
    && (forall x :: x in s.conds && x !in cx ==> s'.conds[x] == s.conds[x])
    && (forall x :: x in s.conds ==> s.conds[x].epoch <= s'.conds[x].epoch)
    && (forall x :: x in s.sems && x !in sx ==> Askers(s'.asking, x) == Askers(s.asking, x))
  }

  /** The queues still hold the threads that are not in T. */
  ghost predicate QueuesKeep(s: State, s': State, T: set<Tid>, sx: set<Id>, cx: set<Id>) {
    && (forall t :: t in s.ready && t !in T ==> t in s'.ready)
    && (forall t :: t in s.zombies && t !in T ==> t in s'.zombies)
    && (forall x, t :: x in s.sems && x in sx && x in s'.sems && t in s.sems[x].queue && t !in T ==>
        t in s'.sems[x].queue)
    && (forall x, t :: x in s.conds && x in cx && x in s'.conds && t in s.conds[x].queue && t !in T ==>
        t in s'.conds[x].queue)
  }

  /** What remains to be shown of the threads, queues and core the step touched. */
  ghost predicate Settled(s': State, c: Core, T: set<Tid>, sx: set<Id>, cx: set<Id>) {
    && CoreOk(s', c)
    && (forall t :: t in T && t in s'.place ==> ThreadOk(s', t) && ContextOk(s', t))
    && (forall t :: t in T && t in s'.saved ==> t in s'.place)
    && (forall t :: t in T && t in s'.asking ==> AskOk(s', t))
    && (forall u :: u in s'.carry && (u in T || s'.carry[u] in T) ==> CarryOk(s', u))
    && QueueOk(s', s'.ready, Ready) && (forall k :: 0 <= k < |s'.ready| ==> s'.ready[k] !in s'.asking)
    && QueueOk(s', s'.zombies, Zombie)
    && (forall k :: 0 <= k < |s'.zombies| ==> s'.zombies[k] !in s'.asking && s'.zombies[k] !in s'.carry)
    && (forall x :: x in sx && x in s'.sems ==> SemOk(s', x))
    && (forall x :: x in cx && x in s'.conds ==> CondOk(s', x))
  }

  lemma IdleSame(s: State, s': State, t: Tid)
    requires s'.idle == s.idle
    ensures IsIdle(s, t) == IsIdle(s', t)
  {
  }

  lemma InvKept(s: State, s': State, c: Core, T: set<Tid>, sx: set<Id>, cx: set<Id>)
    requires Inv(s) && Local(s, s', c, T, sx, cx) && QueuesKeep(s, s', T, sx, cx) && Settled(s', c, T, sx, cx)
    ensures Inv(s')
  {
    hide CoreOk, ThreadOk, ContextOk, SemOk, CondOk, CarryOk, AskOk, QueueOk, IsIdle, Local, QueuesKeep, Settled;
    SettledParts(s', c, T, sx, cx);
    CoresKept(s, s', c, T, sx, cx);
    ThreadsKept(s, s', c, T, sx, cx);
    SharedKept(s, s', c, T, sx, cx);
    RefsKept(s, s', c, T, sx, cx);
  }

  lemma SettledParts(s': State, c: Core, T: set<Tid>, sx: set<Id>, cx: set<Id>)
    requires Settled(s', c, T, sx, cx)
    ensures CoreOk(s', c)
    ensures QueueOk(s', s'.ready, Ready) && (forall k :: 0 <= k < |s'.ready| ==> s'.ready[k] !in s'.asking)
    ensures QueueOk(s', s'.zombies, Zombie)
    ensures forall k :: 0 <= k < |s'.zombies| ==> s'.zombies[k] !in s'.asking && s'.zombies[k] !in s'.carry
  {
    hide CoreOk, ThreadOk, ContextOk, SemOk, CondOk, CarryOk, AskOk, QueueOk, IsIdle;
  }

  lemma CoresKept(s: State, s': State, c: Core, T: set<Tid>, sx: set<Id>, cx: set<Id>)
    requires Inv(s) && Local(s, s', c, T, sx, cx) && CoreOk(s', c)
    ensures s'.idle == s.idle && s'.stage.Keys == s.stage.Keys && s'.active.Keys == s.active.Keys
    ensures (forall d :: d in s'.stage ==> CoreOk(s', d)) && REAPER in s'.conds
  {
    hide CoreOk, ThreadOk, ContextOk, SemOk, CondOk, CarryOk, AskOk, QueueOk, IsIdle;
    forall d | d in s'.stage ensures CoreOk(s', d) {
      if d != c {
        CoreKept(s, s', c, T, sx, cx, d);
      }
    }
  }

  lemma ThreadsKept(s: State, s': State, c: Core, T: set<Tid>, sx: set<Id>, cx: set<Id>)
    requires Inv(s) && Local(s, s', c, T, sx, cx) && QueuesKeep(s, s', T, sx, cx) && Settled(s', c, T, sx, cx)
    ensures forall t :: t in s'.place ==> ThreadOk(s', t)
    ensures forall t :: t in s'.place ==> ContextOk(s', t)
    ensures forall t :: t in s'.saved ==> t in s'.place
  {
    hide CoreOk, ThreadOk, ContextOk, SemOk, CondOk, CarryOk, AskOk, QueueOk, IsIdle, QueuesKeep;
    forall t | t in s'.place ensures ThreadOk(s', t) && ContextOk(s', t) {
      if t !in T {
        assert SameThread(s, s', t);
        ThreadKept(s, s', c, T, sx, cx, t);
      }
    }
    forall t | t in s'.saved ensures t in s'.place {
      assert t !in T ==> SameThread(s, s', t);
    }
  }

  lemma SharedKept(s: State, s': State, c: Core, T: set<Tid>, sx: set<Id>, cx: set<Id>)
    requires Inv(s) && Local(s, s', c, T, sx, cx) && Settled(s', c, T, sx, cx)
    ensures forall x :: x in s'.sems ==> SemOk(s', x)
    ensures forall x :: x in s'.conds ==> CondOk(s', x)
  {
    hide CoreOk, ThreadOk, ContextOk, SemOk, CondOk, CarryOk, AskOk, QueueOk, IsIdle, SameThread, SameCore;
    forall x | x in s'.sems ensures SemOk(s', x) {
      if x !in sx {
        SemKept(s, s', c, T, sx, cx, x);
      }
    }
    forall x | x in s'.conds ensures CondOk(s', x) {
      if x !in cx {
        CondKept(s, s', c, T, sx, cx, x);
      }
    }
  }

  lemma RefsKept(s: State, s': State, c: Core, T: set<Tid>, sx: set<Id>, cx: set<Id>)
    requires Inv(s) && Local(s, s', c, T, sx, cx) && Settled(s', c, T, sx, cx)
    ensures forall u :: u in s'.carry ==> CarryOk(s', u)
    ensures forall t :: t in s'.asking ==> AskOk(s', t)
  {
    hide CoreOk, ThreadOk, ContextOk, SemOk, CondOk, CarryOk, AskOk, QueueOk, IsIdle;
    forall u | u in s'.carry ensures CarryOk(s', u) {
      if u !in T && s'.carry[u] !in T {
        assert SameThread(s, s', u) && SameThread(s, s', s'.carry[u]);
        CarryKept(s, s', u);
      }
    }
    forall t | t in s'.asking ensures AskOk(s', t) {
      if t !in T {
        assert SameThread(s, s', t);
        AskKept(s, s', c, T, sx, cx, t);
      }
    }
  }

  lemma CoreKept(s: State, s': State, c: Core, T: set<Tid>, sx: set<Id>, cx: set<Id>, d: Core)
    requires Local(s, s', c, T, sx, cx) && d != c && d in s.stage && CoreOk(s, d)
    ensures CoreOk(s', d)
  {
    hide IsIdle, Local;
    LocalFacts(s, s', c, T, sx, cx, d);
    HeldElsewhere(s, s', c, T, sx, cx, d, s.active[d]);
    match s.stage[d] {
      case Run =>
      case Choosing(_) =>
      case Chosen(next, _) => HeldElsewhere(s, s', c, T, sx, cx, d, next);
      case Active(me, _, _) => HeldElsewhere(s, s', c, T, sx, cx, d, me);
      case Saved(me, _, _) => HeldElsewhere(s, s', c, T, sx, cx, d, me);
      case Handler(me, _, _) => HeldElsewhere(s, s', c, T, sx, cx, d, me);
      case Requeue(x, _) => HeldElsewhere(s, s', c, T, sx, cx, d, x);
    }
  }

  lemma LocalFacts(s: State, s': State, c: Core, T: set<Tid>, sx: set<Id>, cx: set<Id>, d: Core)
    requires Local(s, s', c, T, sx, cx) && d != c && d in s.stage && d in s.idle
    ensures SameCore(s, s', d) && SameThread(s, s', s.idle[d]) && s'.idle == s.idle
    ensures forall t :: IsIdle(s', t) == IsIdle(s, t)
    ensures forall x :: x in s.sems ==> x in s'.sems
    ensures forall x :: x in s.conds ==> x in s'.conds && s.conds[x].epoch <= s'.conds[x].epoch
  {
    IdleSameAll(s, s');
  }

  lemma HeldElsewhere(s: State, s': State, c: Core, T: set<Tid>, sx: set<Id>, cx: set<Id>, d: Core, t: Tid)
    requires Local(s, s', c, T, sx, cx) && d != c && t in s.place && s.place[t] == OnCore(d)
    ensures t !in T && SameThread(s, s', t)
  {
  }

  lemma ThreadKept(s: State, s': State, c: Core, T: set<Tid>, sx: set<Id>, cx: set<Id>, t: Tid)
    requires Local(s, s', c, T, sx, cx) && QueuesKeep(s, s', T, sx, cx)
    requires t !in T && t in s.place && t in s'.place && ThreadOk(s, t) && ContextOk(s, t)
    ensures ThreadOk(s', t) && ContextOk(s', t)
  {
    assert SameThread(s, s', t);
    match s.place[t] {
      case OnCore(d) => assert SameCore(s, s', d);
      case Carried(u) => assert u !in T ==> SameThread(s, s', u);
      case _ =>
    }
  }

  /** A queue none of whose threads was touched. */
  lemma QueueKept(s: State, s': State, T: set<Tid>, q: seq<Tid>, p: Place)
    requires QueueOk(s, q, p) && s'.idle == s.idle && forall t :: t !in T ==> SameThread(s, s', t)
    requires forall k :: 0 <= k < |q| ==> q[k] !in T
    ensures QueueOk(s', q, p)
  {
    forall k | 0 <= k < |q| ensures q[k] in s'.place && s'.place[q[k]] == p && !IsIdle(s', q[k]) {
      assert SameThread(s, s', q[k]);
      IdleSame(s, s', q[k]);
    }
  }

  lemma SemKept(s: State, s': State, c: Core, T: set<Tid>, sx: set<Id>, cx: set<Id>, x: Id)
    requires Local(s, s', c, T, sx, cx) && x in s.sems && x !in sx && SemOk(s, x)
    ensures SemOk(s', x)
  {
    hide IsIdle;
    var q := s.sems[x].queue;
    forall k | 0 <= k < |q| ensures q[k] !in T {
      assert s.place[q[k]] == SemQ(x);
    }
    QueueKept(s, s', T, q, SemQ(x));
    forall k | 0 <= k < |q| ensures q[k] in s'.asking && s'.asking[q[k]] == x {
      assert SameThread(s, s', q[k]);
    }
  }

  lemma CondKept(s: State, s': State, c: Core, T: set<Tid>, sx: set<Id>, cx: set<Id>, x: Id)
    requires Local(s, s', c, T, sx, cx) && x in s.conds && x !in cx && CondOk(s, x)
    ensures CondOk(s', x)
  {
    hide IsIdle;
    var q := s.conds[x].queue;
    forall k | 0 <= k < |q| ensures q[k] !in T {
      assert s.place[q[k]] == CondQ(x);
    }
    QueueKept(s, s', T, q, CondQ(x));
    forall k | 0 <= k < |q| ensures q[k] !in s'.asking {
      assert SameThread(s, s', q[k]);
    }
  }

  lemma CarryKept(s: State, s': State, u: Tid)
    requires u in s.carry && CarryOk(s, u) && s'.idle == s.idle && SameThread(s, s', u) && SameThread(s, s', s.carry[u])
    ensures u in s'.carry && CarryOk(s', u)
  {
    IdleSame(s, s', s.carry[u]);
  }

  lemma AskKept(s: State, s': State, c: Core, T: set<Tid>, sx: set<Id>, cx: set<Id>, t: Tid)
    requires Local(s, s', c, T, sx, cx) && t !in T && t in s.asking && AskOk(s, t)
    ensures t in s'.asking && AskOk(s', t)
  {
    assert SameThread(s, s', t);
    IdleSame(s, s', t);
    if s.place[t].OnCore? {
      assert SameCore(s, s', s.place[t].c);
    }
  }

  // ---------- facts about one core ----------

  /** The core's own state, and that whatever is placed on it is held by it. */
  lemma CoreFacts(s: State, c: Core)
    requires Inv(s) && c in s.stage
    ensures c in s.active && c in s.idle && CoreOk(s, c) && IsIdle(s, s.idle[c])
    ensures forall t :: t in s.place && s.place[t] == OnCore(c) ==> Holds(s, c, t) && ContextOk(s, t)
    ensures forall d :: d in s.idle && d != c ==>
        s.idle[d] in s.place && (s.place[s.idle[d]] == Resting || s.place[s.idle[d]] == OnCore(d)) &&
            s.idle[d] != s.idle[c]
  {
    hide ContextOk, SemOk, CondOk, CarryOk, AskOk, QueueOk, StageOk, Holds;
    forall t | t in s.place && s.place[t] == OnCore(c) ensures Holds(s, c, t) {
      assert ThreadOk(s, t);
    }
    forall d | d in s.idle && d != c
      ensures s.idle[d] in s.place && (s.place[s.idle[d]] == Resting || s.place[s.idle[d]] == OnCore(d)) &&
          s.idle[d] != s.idle[c]
    {
      assert CoreOk(s, d);
    }
  }

  /** A step that moves no thread: only core c's progress, its saved registers or requests change. */
  ghost predicate Stationary(s: State, s': State, c: Core) {
    && c in s.stage && c in s.active
    && s'.idle == s.idle && s'.stage.Keys == s.stage.Keys && s'.active.Keys == s.active.Keys
    && (forall d :: d != c ==> SameCore(s, s', d))
    && s'.place == s.place && s'.ready == s.ready && s'.zombies == s.zombies && s'.carry == s.carry
    && s'.sems.Keys == s.sems.Keys && s'.conds.Keys == s.conds.Keys
    && (forall x :: x in s.conds ==> s.conds[x].epoch <= s'.conds[x].epoch)
    && (forall t :: !(t in s.place && s.place[t] == OnCore(c)) ==> SameThread(s, s', t))
  }

  ghost function On(s: State, c: Core): set<Tid> {
    set t | t in s.place && s.place[t] == OnCore(c)
  }

  /** What remains to be shown for a step that moves no thread. */
  ghost predicate CoreSettled(s': State, c: Core) {
    && CoreOk(s', c)
    && (forall t :: t in s'.place && s'.place[t] == OnCore(c) ==> Holds(s', c, t) && ContextOk(s', t))
    && (forall t :: t in s'.place && s'.place[t] == OnCore(c) && t in s'.asking ==> AskOk(s', t))
  }

  /** Semaphores outside sx and conditions outside cx are untouched; the others keep their queues. */
  ghost predicate SharedAs(s: State, s': State, sx: set<Id>, cx: set<Id>)
    requires s'.sems.Keys == s.sems.Keys && s'.conds.Keys == s.conds.Keys
  {
    && (forall x :: x in s.sems && x !in sx ==> s'.sems[x] == s.sems[x] && Askers(s'.asking, x) == Askers(s.asking, x))
    && (forall x :: x in s.sems && x in sx ==> SemOk(s', x) && s'.sems[x].queue == s.sems[x].queue)
    && (forall x :: x in s.conds && x !in cx ==> s'.conds[x] == s.conds[x])
    && (forall x :: x in s.conds && x in cx ==> CondOk(s', x) && s'.conds[x].queue == s.conds[x].queue)
  }

  lemma StationaryOk(s: State, s': State, c: Core, sx: set<Id>, cx: set<Id>)
    requires Inv(s) && Stationary(s, s', c) && CoreSettled(s', c) && SharedAs(s, s', sx, cx)
    ensures Inv(s')
  {
    hide Inv, Local, QueuesKeep, Settled, CoreOk, CoreSettled, SharedAs;
    StationaryLocal(s, s', c, sx, cx);
    StationarySettled(s, s', c, sx, cx);
    InvKept(s, s', c, On(s, c), sx, cx);
  }

  lemma StationaryLocal(s: State, s': State, c: Core, sx: set<Id>, cx: set<Id>)
    requires Inv(s) && Stationary(s, s', c) && SharedAs(s, s', sx, cx)
    ensures Local(s, s', c, On(s, c), sx, cx) && QueuesKeep(s, s', On(s, c), sx, cx)
  {
    hide Inv, CoreOk, Askers, SameThread, SameCore, SemOk, CondOk;
    CoreFacts(s, c);
  }

  lemma StationarySettled(s: State, s': State, c: Core, sx: set<Id>, cx: set<Id>)
    requires Inv(s) && Stationary(s, s', c) && CoreSettled(s', c) && SharedAs(s, s', sx, cx)
    ensures Settled(s', c, On(s, c), sx, cx)
  {
    hide Inv, CoreOk, SemOk, CondOk, AskOk, ContextOk, IsIdle, Askers;
    QueueFacts(s);
    var T := On(s, c);
    assert forall t :: t in s.place ==> IsIdle(s, t) == IsIdle(s', t) by { IdleSameAll(s, s'); }
    StationaryQueue(s, s', c, s.ready, Ready);
    StationaryQueue(s, s', c, s.zombies, Zombie);
    forall u | u in s'.carry && (u in T || s'.carry[u] in T) ensures CarryOk(s', u) {
      assert CarryOk(s, u);
      assert s.place[s.carry[u]] == Carried(u);
      assert SameThread(s, s', s.carry[u]);
    }
  }

  lemma IdleSameAll(s: State, s': State)
    requires s'.idle == s.idle
    ensures forall t :: IsIdle(s, t) == IsIdle(s', t)
  {
  }

  lemma StationaryQueue(s: State, s': State, c: Core, q: seq<Tid>, p: Place)
    requires Stationary(s, s', c) && QueueOk(s, q, p) && !p.OnCore?
    ensures QueueOk(s', q, p)
    ensures forall k :: 0 <= k < |q| ==> (q[k] in s'.asking <==> q[k] in s.asking)
  {
    hide IsIdle;
    IdleSameAll(s, s');
    forall k | 0 <= k < |q| ensures q[k] in s'.asking <==> q[k] in s.asking {
      assert s.place[q[k]] == p;
      assert SameThread(s, s', q[k]);
    }
  }

  // ---------- steps that move no thread ----------

  ghost function Progress(s: State, c: Core, g: Stage, a: Tid, saved: set<Tid>): State {
    s.(stage := s.stage[c := g], active := s.active[c := a], saved := saved)
  }

  lemma ProgressOk(s: State, c: Core, g: Stage, a: Tid, saved: set<Tid>)
    requires Inv(s) && c in s.stage && c in s.active && CoreSettled(Progress(s, c, g, a, saved), c)
    requires forall t :: !(t in s.place && s.place[t] == OnCore(c)) ==> (t in saved <==> t in s.saved)
    ensures Inv(Progress(s, c, g, a, saved))
  {
    hide Inv, CoreSettled, SemOk, CondOk;
    var s' := Progress(s, c, g, a, saved);
    KeysFacts(s);
    StationaryOk(s, s', c, {}, {});
  }

  lemma KeysFacts(s: State)
    requires Inv(s)
    ensures s.active.Keys == s.stage.Keys && s.idle.Keys == s.stage.Keys && REAPER in s.conds
  {
    hide CoreOk, ThreadOk, ContextOk, SemOk, CondOk, CarryOk, AskOk, QueueOk, IsIdle;
  }

  lemma StaySame(s: State, c: Core)
    requires c in s.active && c in s.stage
    ensures s.active[c := s.active[c]] == s.active
  {
  }

  lemma CallOk(s: State, c: Core, a: Action)
    requires Inv(s) && Running(s, c) && ActionOk(At(s, c, Choosing(a)), s.active[c], a) && !a.Down?
    ensures Inv(At(s, c, Choosing(a)))
  {
    hide Inv, AskOk, IsIdle;
    CoreFacts(s, c);
    StaySame(s, c);
    assert At(s, c, Choosing(a)) == Progress(s, c, Choosing(a), s.active[c], s.saved);
    ProgressOk(s, c, Choosing(a), s.active[c], s.saved);
  }

  lemma AskFacts(s: State, c: Core)
    requires Inv(s)
    ensures forall t :: t in s.asking ==> AskOk(s, t)
    ensures forall x :: x in s.sems ==> SemOk(s, x)
    ensures forall x :: x in s.conds ==> CondOk(s, x)
  {
    hide CoreOk, ThreadOk, ContextOk, SemOk, CondOk, CarryOk, AskOk, QueueOk, IsIdle;
  }

  lemma GiveUpOk(s: State, c: Core)
    requires Inv(s) && Enabled(s, GiveUp(c))
    ensures Inv(At(s, c, Run))
  {
    hide Inv, AskOk, IsIdle;
    CoreFacts(s, c);
    StaySame(s, c);
    assert At(s, c, Run) == Progress(s, c, Run, s.active[c], s.saved);
    ProgressOk(s, c, Run, s.active[c], s.saved);
  }

  lemma ActivateOk(s: State, c: Core)
    requires Inv(s) && Enabled(s, Activate(c))
    ensures Inv(Do(s, Activate(c)))
  {
    hide Inv, CoreSettled;
    KeysFacts(s);
    var g, a := Active(s.active[c], s.stage[c].next, s.stage[c].act), s.stage[c].next;
    assert Do(s, Activate(c)) == Progress(s, c, g, a, s.saved);
    ActivateCore(s, c);
    ProgressOk(s, c, g, a, s.saved);
  }

  lemma ActivateCore(s: State, c: Core)
    requires Inv(s) && c in s.stage && c in s.active && s.stage[c].Chosen?
    ensures
      var g := Active(s.active[c], s.stage[c].next, s.stage[c].act);
      CoreSettled(Progress(s, c, g, s.stage[c].next, s.saved), c)
  {
    hide Inv, IsIdle;
    CoreFacts(s, c);
    AskFacts(s, c);
    IdleSameAll(s, Progress(s, c, Active(s.active[c], s.stage[c].next, s.stage[c].act), s.stage[c].next, s.saved));
  }

  lemma SaveOk(s: State, c: Core)
    requires Inv(s) && Enabled(s, Save(c))
    ensures Inv(Do(s, Save(c)))
  {
    hide Inv, CoreSettled;
    KeysFacts(s);
    StaySame(s, c);
    var g, saved := Saved(s.stage[c].me, s.stage[c].next, s.stage[c].act), s.saved + {s.stage[c].me};
    assert Do(s, Save(c)) == Progress(s, c, g, s.active[c], saved);
    SaveCore(s, c, g, saved);
    ProgressOk(s, c, g, s.active[c], saved);
  }

  lemma SaveCore(s: State, c: Core, g: Stage, saved: set<Tid>)
    requires Inv(s) && c in s.stage && c in s.active && s.stage[c].Active?
    requires g == Saved(s.stage[c].me, s.stage[c].next, s.stage[c].act) && saved == s.saved + {s.stage[c].me}
    ensures CoreSettled(Progress(s, c, g, s.active[c], saved), c)
    ensures s.stage[c].me in s.place && s.place[s.stage[c].me] == OnCore(c)
  {
    hide Inv, IsIdle;
    CoreFacts(s, c);
    AskFacts(s, c);
    IdleSameAll(s, Progress(s, c, g, s.active[c], saved));
  }

  lemma SwitchOk(s: State, c: Core)
    requires Inv(s) && Enabled(s, Switch(c))
    ensures Inv(Do(s, Switch(c)))
  {
    hide Inv, CoreSettled;
    KeysFacts(s);
    StaySame(s, c);
    var g, saved := Handler(s.stage[c].me, s.stage[c].next, s.stage[c].act), s.saved - {s.stage[c].next};
    assert Do(s, Switch(c)) == Progress(s, c, g, s.active[c], saved);
    SwitchCore(s, c, g, saved);
    ProgressOk(s, c, g, s.active[c], saved);
  }

  lemma SwitchCore(s: State, c: Core, g: Stage, saved: set<Tid>)
    requires Inv(s) && c in s.stage && c in s.active && s.stage[c].Saved?
    requires g == Handler(s.stage[c].me, s.stage[c].next, s.stage[c].act) && saved == s.saved - {s.stage[c].next}
    ensures CoreSettled(Progress(s, c, g, s.active[c], saved), c)
    ensures s.stage[c].next in s.place && s.place[s.stage[c].next] == OnCore(c)
  {
    hide Inv, IsIdle;
    CoreFacts(s, c);
    AskFacts(s, c);
    IdleSameAll(s, Progress(s, c, g, s.active[c], saved));
  }

  lemma RequeueOk(s: State, c: Core)
    requires Inv(s) && Handling(s, c) && (s.stage[c].act.Yield? || s.stage[c].act.Wait?) && !IsIdle(s, s.stage[c].me)
    ensures Inv(At(s, c, Requeue(s.stage[c].me, s.stage[c].next)))
  {
    hide Inv, AskOk;
    CoreFacts(s, c);
    StaySame(s, c);
    var g := Requeue(s.stage[c].me, s.stage[c].next);
    assert At(s, c, g) == Progress(s, c, g, s.active[c], s.saved);
    ProgressOk(s, c, g, s.active[c], s.saved);
  }

  // ---------- semaphores and conditions ----------

  /** A semaphore whose queue is as it was, in a step that moves no thread. */
  lemma SemCounts(s: State, s': State, c: Core, x: Id)
    requires Stationary(s, s', c) && x in s.sems && SemOk(s, x)
    requires var m, m' := s.sems[x], s'.sems[x];
             && m'.queue == m.queue && m'.added == m.added && m'.removed == m.removed && m'.initial == m.initial
             && (m'.count > 0 ==> m'.queue == []) && m'.initial + m'.ups == m'.count + m'.grants
             && m'.asked == m'.grants + |Askers(s'.asking, x)|
    ensures SemOk(s', x)
  {
    hide IsIdle;
    var q := s.sems[x].queue;
    StationaryQueue(s, s', c, q, SemQ(x));
    forall k | 0 <= k < |q| ensures q[k] in s'.asking && s'.asking[q[k]] == x {
      assert s.place[q[k]] == SemQ(x);
      assert SameThread(s, s', q[k]);
    }
  }

  lemma CondCounts(s: State, s': State, c: Core, x: Id)
    requires Stationary(s, s', c) && x in s.conds && CondOk(s, x) && s'.asking == s.asking
    requires var m, m' := s.conds[x], s'.conds[x];
             && m'.queue == m.queue && m'.since == m.since && m'.lastAll <= m'.epoch && m.epoch <= m'.epoch
             && (m'.notifier.None? ==> m'.lastAll == m.lastAll && (m.notifier.None? || m.queue == []))
             && (m'.notifier.Some? ==> m'.lastAll == m'.epoch)
    ensures CondOk(s', x)
  {
    hide IsIdle;
    StationaryQueue(s, s', c, s.conds[x].queue, CondQ(x));
  }

  lemma DownNowOk(s: State, c: Core, x: Id)
    requires Inv(s) && Enabled(s, DownNow(c, x))
    ensures Inv(Do(s, DownNow(c, x)))
  {
    hide Inv, CoreSettled, Stationary, SemOk, CondOk;
    var s' := Do(s, DownNow(c, x));
    AskFacts(s, c);
    SharedFacts(s, s', c);
    OpenSem(s, x);
    SemCounts(s, s', c, x);
    StationaryKeys(s, s', c);
    StationaryOk(s, s', c, {x}, {});
  }

  lemma OpenSem(s: State, x: Id)
    requires x in s.sems && SemOk(s, x)
    ensures var m := s.sems[x];
            && (m.count > 0 ==> m.queue == []) && m.initial + m.ups == m.count + m.grants
            && m.asked == m.grants + |Askers(s.asking, x)| && m.added == m.removed + m.queue
  {
  }

  lemma StationaryKeys(s: State, s': State, c: Core)
    requires Stationary(s, s', c)
    ensures s'.sems.Keys == s.sems.Keys && s'.conds.Keys == s.conds.Keys
  {
  }

  lemma UpCountOk(s: State, c: Core, x: Id)
    requires Inv(s) && CanUp(s, c, x) && s.sems[x].queue == []
    ensures Inv(DoUp(s, c, x))
  {
    hide Inv, CoreSettled, Stationary, SemOk, CondOk;
    var s' := DoUp(s, c, x);
    AskFacts(s, c);
    SharedFacts(s, s', c);
    OpenSem(s, x);
    SemCounts(s, s', c, x);
    StationaryKeys(s, s', c);
    StationaryOk(s, s', c, {x}, {});
  }

  /** A notify that finds nobody, and the two ends of notifyAll. */
  lemma EpochOk(s: State, c: Core, x: Id, m': CondState)
    requires Inv(s) && c in s.stage && x in s.conds
    requires var m := s.conds[x];
             && m'.queue == m.queue && m'.since == m.since && m'.lastAll <= m'.epoch && m.epoch <= m'.epoch
             && (m'.notifier.None? ==> m'.lastAll == m.lastAll && (m.notifier.None? || m.queue == []))
             && (m'.notifier.Some? ==> m'.lastAll == m'.epoch)
    ensures Inv(s.(conds := s.conds[x := m']))
  {
    hide Inv, CoreSettled, Stationary, SemOk, CondOk;
    var s' := s.(conds := s.conds[x := m']);
    AskFacts(s, c);
    SharedFacts(s, s', c);
    CondCounts(s, s', c, x);
    StationaryKeys(s, s', c);
    StationaryOk(s, s', c, {}, {x});
  }

  lemma OpenCond(s: State, x: Id)
    requires x in s.conds && CondOk(s, x)
    ensures s.conds[x].lastAll <= s.conds[x].epoch && QueueOk(s, s.conds[x].queue, CondQ(x))
    ensures s.conds[x].notifier.Some? ==> s.conds[x].lastAll == s.conds[x].epoch
  {
  }

  lemma NotifyAllEndsOk(s: State, c: Core, x: Id)
    requires Inv(s)
    ensures Enabled(s, NotifyAllBegin(c, x)) ==> Inv(Do(s, NotifyAllBegin(c, x)))
    ensures Enabled(s, NotifyAllEnd(c, x)) ==> Inv(Do(s, NotifyAllEnd(c, x)))
  {
    hide Inv, CondOk;
    AskFacts(s, c);
    if Enabled(s, NotifyAllBegin(c, x)) {
      var m := s.conds[x];
      EpochOk(s, c, x, m.(epoch := m.epoch + 1, lastAll := m.epoch + 1, notifier := Some(s.active[c])));
    }
    if Enabled(s, NotifyAllEnd(c, x)) {
      OpenCond(s, x);
      EpochOk(s, c, x, s.conds[x].(notifier := None));
    }
  }

  lemma NotifyNobodyOk(s: State, c: Core, x: Id)
    requires Inv(s) && Enabled(s, NotifyOne(c, x)) && s.conds[x].queue == []
    ensures Inv(Do(s, NotifyOne(c, x)))
  {
    hide Inv, CondOk;
    AskFacts(s, c);
    OpenCond(s, x);
    EpochOk(s, c, x, s.conds[x].(epoch := s.conds[x].epoch + 1));
  }

  lemma AskersAdd(asking: map<Tid, Id>, t: Tid, x: Id)
    requires t !in asking
    ensures |Askers(asking[t := x], x)| == |Askers(asking, x)| + 1
    ensures forall y :: y != x ==> Askers(asking[t := x], y) == Askers(asking, y)
  {
    assert Askers(asking[t := x], x) == Askers(asking, x) + {t};
  }

  lemma AskersDrop(asking: map<Tid, Id>, t: Tid)
    requires t in asking
    ensures |Askers(asking, asking[t])| == |Askers(asking - {t}, asking[t])| + 1
    ensures forall y :: y != asking[t] ==> Askers(asking - {t}, y) == Askers(asking, y)
  {
    assert Askers(asking, asking[t]) == Askers(asking - {t}, asking[t]) + {t};
  }

  lemma DownBlockOk(s: State, c: Core, x: Id)
    requires Inv(s) && CanUp(s, c, x) && !IsIdle(s, s.active[c])
    ensures Inv(DoDownBlock(s, c, x))
  {
    hide Inv, SemOk, CondOk, IsIdle, Askers, CoreSettled, Stationary, AskOk;
    var s' := DoDownBlock(s, c, x);
    AskFacts(s, c);
    OpenSem(s, x);
    DownBlockCore(s, c, x);
    AskersAdd(s.asking, s.active[c], x);
    DownBlockStays(s, c, x);
    StationaryKeys(s, s', c);
    SemCounts(s, s', c, x);
    StationaryOk(s, s', c, {x}, {});
  }

  lemma DownBlockStays(s: State, c: Core, x: Id)
    requires Inv(s) && CanUp(s, c, x)
    ensures Stationary(s, DoDownBlock(s, c, x), c)
  {
    hide Inv, CoreOk;
    CoreFacts(s, c);
    KeysFacts(s);
    ActiveHere(s, c);
  }

  lemma ActiveHere(s: State, c: Core)
    requires Inv(s) && c in s.stage
    ensures c in s.active && s.active[c] in s.place && s.place[s.active[c]] == OnCore(c)
  {
    hide Inv;
    CoreFacts(s, c);
  }

  lemma DownBlockCore(s: State, c: Core, x: Id)
    requires Inv(s) && CanUp(s, c, x) && !IsIdle(s, s.active[c])
    ensures CoreSettled(DoDownBlock(s, c, x), c) && s.active[c] !in s.asking
  {
    hide Inv, IsIdle;
    CoreFacts(s, c);
    IdleSameAll(s, DoDownBlock(s, c, x));
  }

  /** The handler of down finds that the count has risen meanwhile. */
  lemma DownGrantedOk(s: State, c: Core)
    requires Inv(s) && HandlesDown(s, c) && s.sems[s.stage[c].act.sem].count > 0
    ensures Inv(DoDown(s, c))
  {
    hide Inv, SemOk, CondOk, IsIdle, Askers, CoreSettled;
    var s', x, me := DoDown(s, c), s.stage[c].act.sem, s.stage[c].me;
    CoreFacts(s, c);
    KeysFacts(s);
    AskFacts(s, c);
    OpenSem(s, x);
    AskersDrop(s.asking, me);
    DownGrantedCore(s, c);
    assert Stationary(s, s', c);
    SemCounts(s, s', c, x);
    StationaryOk(s, s', c, {x}, {});
  }

  lemma DownGrantedCore(s: State, c: Core)
    requires Inv(s) && HandlesDown(s, c) && s.sems[s.stage[c].act.sem].count > 0
    ensures CoreSettled(DoDown(s, c), c)
  {
    hide Inv, IsIdle;
    CoreFacts(s, c);
    AskFacts(s, c);
    IdleSameAll(s, DoDown(s, c));
  }

  /** Changing only counts and epochs leaves the core and its threads in order. */
  lemma SharedFacts(s: State, s': State, c: Core)
    requires Inv(s) && c in s.stage && s' == s.(sems := s'.sems, conds := s'.conds)
    requires s'.sems.Keys == s.sems.Keys && s'.conds.Keys == s.conds.Keys
    requires forall x :: x in s.conds ==> s.conds[x].epoch <= s'.conds[x].epoch
    ensures CoreSettled(s', c) && Stationary(s, s', c)
  {
    hide Inv, CoreSettled, Stationary;
    SharedStays(s, s', c);
    SharedSettled(s, s', c);
  }

  lemma SharedStays(s: State, s': State, c: Core)
    requires Inv(s) && c in s.stage && s' == s.(sems := s'.sems, conds := s'.conds)
    requires s'.sems.Keys == s.sems.Keys && s'.conds.Keys == s.conds.Keys
    requires forall x :: x in s.conds ==> s.conds[x].epoch <= s'.conds[x].epoch
    ensures Stationary(s, s', c)
  {
    hide Inv, IsIdle;
    KeysFacts(s);
    CoreFacts(s, c);
  }

  lemma SharedSettled(s: State, s': State, c: Core)
    requires Inv(s) && c in s.stage && s' == s.(sems := s'.sems, conds := s'.conds)
    requires s'.sems.Keys == s.sems.Keys && s'.conds.Keys == s.conds.Keys
    requires forall x :: x in s.conds ==> s.conds[x].epoch <= s'.conds[x].epoch
    ensures CoreSettled(s', c)
  {
    hide Inv, IsIdle, SemOk, CondOk;
    CoreFacts(s, c);
    KeysFacts(s);
    AskFacts(s, c);
    IdleSameAll(s, s');
  }

  // ---------- steps that move one thread ----------

  /** Thread w goes from one place to another; nothing else moves. */
  ghost predicate Moves(s: State, s': State, c: Core, w: Tid, sx: set<Id>, cx: set<Id>) {
    && c in s.stage && c in s.active && c in s.idle
    && s'.idle == s.idle && s'.stage.Keys == s.stage.Keys && s'.active.Keys == s.active.Keys
    && (forall d :: d != c ==> SameCore(s, s', d))
    && (forall t :: t != w && !(t in s.place && s.place[t] == OnCore(c)) ==> SameThread(s, s', t))
    && (w in s.place ==> Nearby(s.place[w], c, sx, cx) && (IsIdle(s, w) ==> w == s.idle[c]))
    && s'.sems.Keys == s.sems.Keys && s'.conds.Keys == s.conds.Keys
    && (forall x :: x in s.conds ==> s.conds[x].epoch <= s'.conds[x].epoch)
    && (forall u :: u in s.carry ==> s.carry[u] == w || (u in s'.carry && s'.carry[u] == s.carry[u]))
    && (forall x :: x in s.sems && x !in sx ==> s'.sems[x] == s.sems[x] && Askers(s'.asking, x) == Askers(s.asking, x))
    && (forall x :: x in s.conds && x !in cx ==> s'.conds[x] == s.conds[x])
  }

  /** Of a queue, only w may have left or joined. */
  ghost predicate Adjusted(q: seq<Tid>, q': seq<Tid>, w: Tid) {
    q' == q || (q != [] && q[0] == w && q' == q[1..]) || q' == q + [w]
  }

  ghost predicate QueuesAdjusted(s: State, s': State, w: Tid) {
    && s'.sems.Keys == s.sems.Keys && s'.conds.Keys == s.conds.Keys
    && Adjusted(s.ready, s'.ready, w) && Adjusted(s.zombies, s'.zombies, w)
    && (forall x :: x in s.sems ==> Adjusted(s.sems[x].queue, s'.sems[x].queue, w))
    && (forall x :: x in s.conds ==> Adjusted(s.conds[x].queue, s'.conds[x].queue, w))
  }

  lemma MoveOk(s: State, s': State, c: Core, w: Tid, sx: set<Id>, cx: set<Id>)
    requires Inv(s) && Moves(s, s', c, w, sx, cx) && QueuesAdjusted(s, s', w)
    requires Settled(s', c, On(s, c) + {w}, sx, cx)
    ensures Inv(s')
  {
    hide Inv, Local, QueuesKeep, Settled, Moves, Adjusted;
    MoveLocal(s, s', c, w, sx, cx);
    MoveQueues(s, s', c, w, sx, cx);
    InvKept(s, s', c, On(s, c) + {w}, sx, cx);
  }

  lemma MoveLocal(s: State, s': State, c: Core, w: Tid, sx: set<Id>, cx: set<Id>)
    requires Inv(s) && Moves(s, s', c, w, sx, cx)
    ensures Local(s, s', c, On(s, c) + {w}, sx, cx)
  {
    hide Inv, CoreOk, Askers, SameThread, SameCore, SemOk, CondOk;
    CoreFacts(s, c);
    forall d | d in s.idle && d != c ensures s.idle[d] !in On(s, c) + {w} {
      assert IsIdle(s, s.idle[d]);
    }
  }

  lemma MoveQueues(s: State, s': State, c: Core, w: Tid, sx: set<Id>, cx: set<Id>)
    requires QueuesAdjusted(s, s', w)
    ensures QueuesKeep(s, s', On(s, c) + {w}, sx, cx)
  {
    forall q: seq<Tid>, q': seq<Tid>, t | Adjusted(q, q', w) && t in q && t != w ensures t in q' {
      if q[0] == w && q' == q[1..] {
        InTail(q, t);
      }
    }
  }

  lemma InTail(q: seq<Tid>, t: Tid)
    requires q != [] && t in q && t != q[0]
    ensures t in q[1..]
  {
  }

  lemma QueueFacts(s: State)
    requires Inv(s)
    ensures QueueOk(s, s.ready, Ready) && (forall k :: 0 <= k < |s.ready| ==> s.ready[k] !in s.asking)
    ensures QueueOk(s, s.zombies, Zombie)
    ensures forall k :: 0 <= k < |s.zombies| ==> s.zombies[k] !in s.asking && s.zombies[k] !in s.carry
    ensures forall t :: t in s.ready ==> t !in s.asking
    ensures forall t :: t in s.zombies ==> t !in s.asking && t !in s.carry
    ensures forall u :: u in s.carry ==> CarryOk(s, u)
    ensures forall t :: t in s.asking ==> AskOk(s, t)
    ensures forall t :: t in s.place ==> ThreadOk(s, t)
    ensures forall t :: t in s.place ==> ContextOk(s, t)
  {
    hide CoreOk, ThreadOk, ContextOk, SemOk, CondOk, CarryOk, AskOk, QueueOk, IsIdle;
  }

  /** How a queue of threads placed at p may change when w moves. */
  ghost predicate QueueFits(s: State, s': State, q: seq<Tid>, q': seq<Tid>, w: Tid, p: Place) {
    || (q' == q && !(w in s.place && s.place[w] == p))
    || (q != [] && q[0] == w && q' == q[1..])
    || (q' == q + [w] && !(w in s.place && s.place[w] == p) && w in s'.place && s'.place[w] == p && !IsIdle(s', w))
  }

  lemma QueueAfter(s: State, s': State, c: Core, w: Tid, sx: set<Id>, cx: set<Id>, q: seq<Tid>, q': seq<Tid>, p: Place)
    requires Moves(s, s', c, w, sx, cx) && QueueOk(s, q, p) && !p.OnCore? && QueueFits(s, s', q, q', w, p)
    ensures QueueOk(s', q', p) && Adjusted(q, q', w)
    ensures forall k :: 0 <= k < |q'| ==> q'[k] == w || (q'[k] in q && SameThread(s, s', q'[k]))
    ensures w in q' ==> w in s'.place && s'.place[w] == p
  {
    hide IsIdle, SameCore, Nearby, Askers;
    IdleSameAll(s, s');
    forall k | 0 <= k < |q'| && q'[k] != w ensures q'[k] in q && SameThread(s, s', q'[k]) {
      if q' == q[1..] {
        assert q'[k] == q[k + 1];
      }
      assert s.place[q'[k]] == p;
    }
    forall k | 0 <= k < |q'| ensures q'[k] in s'.place && s'.place[q'[k]] == p && !IsIdle(s', q'[k]) {
    }
  }

  /** w, or a thread core c held. */
  ghost predicate Touched(s: State, c: Core, w: Tid, t: Tid) {
    t == w || (t in s.place && s.place[t] == OnCore(c))
  }

  /** The core and its threads are in order. */
  ghost predicate HereOk(s: State, s': State, c: Core, w: Tid) {
    && CoreOk(s', c)
    && (forall t :: Touched(s, c, w, t) && t in s'.place ==> ThreadOk(s', t) && ContextOk(s', t))
    && (forall t :: Touched(s, c, w, t) && t in s'.saved ==> t in s'.place)
    && (forall t :: Touched(s, c, w, t) && t in s'.asking ==> AskOk(s', t))
  }

  ghost predicate CarriersOk(s: State, s': State, c: Core, w: Tid) {
    forall u :: u in s'.carry && (Touched(s, c, w, u) || s'.carry[u] == w) ==> CarryOk(s', u)
  }

  ghost predicate ListsOk(s: State, s': State, w: Tid) {
    && QueueFits(s, s', s.ready, s'.ready, w, Ready) && (w in s'.ready ==> w !in s'.asking)
    && QueueFits(s, s', s.zombies, s'.zombies, w, Zombie) && (w in s'.zombies ==> w !in s'.asking && w !in s'.carry)
  }

  /** The semaphores and conditions the step changed are in order. */
  ghost predicate WaitersOk(s: State, s': State, w: Tid, sx: set<Id>, cx: set<Id>) {
    && (forall x :: x in s.sems && x !in sx ==> !(w in s.place && s.place[w] == SemQ(x)))
    && (forall x :: x in s.conds && x !in cx ==> !(w in s.place && s.place[w] == CondQ(x)))
    && (forall x :: x in s.sems && x in sx ==>
        x in s'.sems && SemOk(s', x) && Adjusted(s.sems[x].queue, s'.sems[x].queue, w))
    && (forall x :: x in s.conds && x in cx ==>
        x in s'.conds && CondOk(s', x) && Adjusted(s.conds[x].queue, s'.conds[x].queue, w))
  }

  lemma MovedOk(s: State, s': State, c: Core, w: Tid, sx: set<Id>, cx: set<Id>)
    requires Inv(s) && Moves(s, s', c, w, sx, cx)
    requires HereOk(s, s', c, w) && CarriersOk(s, s', c, w) && ListsOk(s, s', w) && WaitersOk(s, s', w, sx, cx)
    ensures Inv(s')
  {
    hide Inv, Local, QueuesKeep, Settled, Moves, HereOk, CarriersOk, ListsOk, WaitersOk, Adjusted, QueuesAdjusted;
    MovedQueues(s, s', c, w, sx, cx);
    MovedSettled(s, s', c, w, sx, cx);
    MoveOk(s, s', c, w, sx, cx);
  }

  lemma MovedQueues(s: State, s': State, c: Core, w: Tid, sx: set<Id>, cx: set<Id>)
    requires Moves(s, s', c, w, sx, cx) && ListsOk(s, s', w) && WaitersOk(s, s', w, sx, cx)
    ensures QueuesAdjusted(s, s', w)
  {
    hide CoreOk, ThreadOk, ContextOk, SemOk, CondOk, CarryOk, AskOk, QueueOk, IsIdle, SameThread, SameCore;
  }

  lemma MovedSettled(s: State, s': State, c: Core, w: Tid, sx: set<Id>, cx: set<Id>)
    requires Inv(s) && Moves(s, s', c, w, sx, cx)
    requires HereOk(s, s', c, w) && CarriersOk(s, s', c, w) && ListsOk(s, s', w) && WaitersOk(s, s', w, sx, cx)
    ensures Settled(s', c, On(s, c) + {w}, sx, cx)
  {
    hide Inv, Moves, CoreOk, ThreadOk, ContextOk, SemOk, CondOk, AskOk, QueueOk, IsIdle, QueueFits, Adjusted,
        CarryOk, ListsOk;
    MovedLists(s, s', c, w, sx, cx);
    MovedCarry(s, s', c, w, sx, cx);
    MovedKeys(s, s', c, w, sx, cx);
  }

  lemma MovedKeys(s: State, s': State, c: Core, w: Tid, sx: set<Id>, cx: set<Id>)
    requires Moves(s, s', c, w, sx, cx)
    ensures s'.sems.Keys == s.sems.Keys && s'.conds.Keys == s.conds.Keys
  {
  }

  lemma MovedLists(s: State, s': State, c: Core, w: Tid, sx: set<Id>, cx: set<Id>)
    requires Inv(s) && Moves(s, s', c, w, sx, cx) && ListsOk(s, s', w)
    ensures QueueOk(s', s'.ready, Ready) && QueueOk(s', s'.zombies, Zombie)
    ensures forall k :: 0 <= k < |s'.ready| ==> s'.ready[k] !in s'.asking
    ensures forall k :: 0 <= k < |s'.zombies| ==> s'.zombies[k] !in s'.asking && s'.zombies[k] !in s'.carry
  {
    hide Inv, Moves, CoreOk, ThreadOk, ContextOk, SemOk, CondOk, AskOk, QueueOk, IsIdle, QueueFits, Adjusted, CarryOk;
    QueueFacts(s);
    QueueAfter(s, s', c, w, sx, cx, s.ready, s'.ready, Ready);
    QueueAfter(s, s', c, w, sx, cx, s.zombies, s'.zombies, Zombie);
  }

  lemma MovedCarry(s: State, s': State, c: Core, w: Tid, sx: set<Id>, cx: set<Id>)
    requires Inv(s) && Moves(s, s', c, w, sx, cx) && CarriersOk(s, s', c, w)
    ensures forall u :: u in s'.carry && (u in On(s, c) + {w} || s'.carry[u] in On(s, c) + {w}) ==> CarryOk(s', u)
  {
    hide Inv, IsIdle;
    QueueFacts(s);
    forall u | u in s'.carry && (u in On(s, c) + {w} || s'.carry[u] in On(s, c) + {w}) ensures CarryOk(s', u) {
      if !Touched(s, c, w, u) {
        assert SameThread(s, s', u);
        assert CarryOk(s, u);
      }
    }
  }

  lemma ScheduleOk(s: State, c: Core)
    requires Inv(s) && Requeueing(s, c)
    ensures Inv(DoSchedule(s, c))
  {
    hide Inv, Moves, HereOk, CarriersOk, ListsOk, WaitersOk;
    ScheduleMoves(s, c);
    ScheduleHere(s, c);
    ScheduleRest(s, c);
    MovedOk(s, DoSchedule(s, c), c, s.stage[c].x, {}, {});
  }

  lemma RequeueFacts(s: State, c: Core)
    requires Inv(s) && Requeueing(s, c)
    ensures c in s.active && c in s.idle
    ensures var x := s.stage[c].x;
            x in s.place && s.place[x] == OnCore(c) && !IsIdle(s, x) && x !in s.asking
  {
    hide Inv, IsIdle, ContextOk;
    CoreFacts(s, c);
  }

  lemma ScheduleMoves(s: State, c: Core)
    requires Inv(s) && Requeueing(s, c)
    ensures Moves(s, DoSchedule(s, c), c, s.stage[c].x, {}, {})
  {
    hide Inv, IsIdle, CoreOk, ContextOk, Holds;
    RequeueFacts(s, c);
    KeysFacts(s);
  }

  lemma ScheduleHere(s: State, c: Core)
    requires Inv(s) && Requeueing(s, c)
    ensures HereOk(s, DoSchedule(s, c), c, s.stage[c].x)
  {
    hide Inv, IsIdle, SemOk, CondOk, QueueOk;
    CoreFacts(s, c);
    QueueFacts(s);
    IdleSameAll(s, DoSchedule(s, c));
  }

  lemma ScheduleRest(s: State, c: Core)
    requires Inv(s) && Requeueing(s, c)
    ensures CarriersOk(s, DoSchedule(s, c), c, s.stage[c].x) && ListsOk(s, DoSchedule(s, c), s.stage[c].x)
    ensures WaitersOk(s, DoSchedule(s, c), s.stage[c].x, {}, {})
  {
    hide Inv, IsIdle, SemOk, CondOk, QueueOk;
    CoreFacts(s, c);
    QueueFacts(s);
    IdleSameAll(s, DoSchedule(s, c));
  }

  // ---------- handlers that let the old thread go ----------

  /** s' differs from s in that core c has let its old thread go to p, and in queues and counts. */
  ghost predicate Parks(s: State, s': State, c: Core, p: Place) {
    && Handling(s, c) && c in s.idle
    && s'.stage == s.stage[c := Run] && s'.active == s.active && s'.idle == s.idle
    && s'.place == s.place[s.stage[c].me := p] && s'.saved == s.saved && s'.carry == s.carry && s'.asking == s.asking
    && s'.sems.Keys == s.sems.Keys && s'.conds.Keys == s.conds.Keys
    && (forall x :: x in s.conds ==> s.conds[x].epoch <= s'.conds[x].epoch)
    && !p.OnCore? && !p.Carried? && !p.Ready?
  }

  lemma ParkMoves(s: State, s': State, c: Core, p: Place, sx: set<Id>, cx: set<Id>)
    requires Inv(s) && Parks(s, s', c, p)
    requires forall x :: x in s.sems && x !in sx ==> s'.sems[x] == s.sems[x]
    requires forall x :: x in s.conds && x !in cx ==> s'.conds[x] == s.conds[x]
    ensures Moves(s, s', c, s.stage[c].me, sx, cx)
  {
    hide Inv, ActionOk, IsIdle;
    HandlerFacts(s, c);
    KeysFacts(s);
    IdleHere(s, c, s.stage[c].me);
  }

  lemma IdleHere(s: State, c: Core, t: Tid)
    requires Inv(s) && c in s.stage && t in s.place && s.place[t] == OnCore(c)
    ensures IsIdle(s, t) ==> c in s.idle && t == s.idle[c]
  {
    hide Inv, CoreOk;
    CoreFacts(s, c);
  }

  lemma ParkHere(s: State, s': State, c: Core, p: Place)
    requires Inv(s) && Parks(s, s', c, p) && ThreadOk(s', s.stage[c].me)
    requires IsIdle(s, s.stage[c].me) <==> p == Resting
    requires s.stage[c].me in s.asking ==> p == SemQ(s.asking[s.stage[c].me])
    requires s.stage[c].me in s.carry ==> p == Resting
    ensures HereOk(s, s', c, s.stage[c].me) && CarriersOk(s, s', c, s.stage[c].me)
  {
    hide Inv, IsIdle, SemOk, CondOk, QueueOk;
    CoreFacts(s, c);
    QueueFacts(s);
    IdleSameAll(s, s');
  }

  /** The lists when the old thread rests or waits. */
  lemma ParkLists(s: State, s': State, c: Core, p: Place)
    requires Inv(s) && Parks(s, s', c, p) && s'.ready == s.ready && s'.zombies == s.zombies && !p.Zombie?
    ensures ListsOk(s, s', s.stage[c].me)
  {
    hide Inv, IsIdle;
    CoreFacts(s, c);
    QueueFacts(s);
    ListedPlaces(s, s.ready, Ready, s.stage[c].me);
    ListedPlaces(s, s.zombies, Zombie, s.stage[c].me);
  }

  lemma ListedPlaces(s: State, q: seq<Tid>, p: Place, t: Tid)
    requires QueueOk(s, q, p) && !(t in s.place && s.place[t] == p)
    ensures t !in q
  {
  }

  lemma RestOk(s: State, c: Core)
    requires Inv(s) && Handling(s, c) && IsIdle(s, s.stage[c].me) && (s.stage[c].act.Yield? || s.stage[c].act.Stop?)
    ensures Inv(Parked(s, c, s.stage[c].me, Resting))
  {
    hide Inv, Moves, HereOk, CarriersOk, ListsOk, IsIdle;
    var s' := Parked(s, c, s.stage[c].me, Resting);
    KeysFacts(s);
    HandlerFacts(s, c);
    IdleSameAll(s, s');
    ParkMoves(s, s', c, Resting, {}, {});
    ParkHere(s, s', c, Resting);
    ParkLists(s, s', c, Resting);
    MovedOk(s, s', c, s.stage[c].me, {}, {});
  }

  lemma HandlerFacts(s: State, c: Core)
    requires Inv(s) && Handling(s, c)
    ensures c in s.idle && SwitchingOk(s, c, s.stage[c].me, s.stage[c].next, s.stage[c].act)
  {
    hide Inv;
    CoreFacts(s, c);
  }

  lemma BuriedOk(s: State, c: Core)
    requires Inv(s) && HandlesStop(s, c) && !IsIdle(s, s.stage[c].me)
    ensures Inv(Buried(s, c, s.stage[c].me))
  {
    hide Inv, Moves, HereOk, CarriersOk, ListsOk, IsIdle, CondOk, QueueOk, WaitersOk;
    var s' := Buried(s, c, s.stage[c].me);
    KeysFacts(s);
    HandlerFacts(s, c);
    IdleSameAll(s, s');
    ParkMoves(s, s', c, Zombie, {}, {REAPER});
    ParkHere(s, s', c, Zombie);
    BuriedLists(s, c);
    BuriedWaiters(s, c);
    MovedOk(s, s', c, s.stage[c].me, {}, {REAPER});
  }

  lemma BuriedWaiters(s: State, c: Core)
    requires Inv(s) && HandlesStop(s, c) && Moves(s, Buried(s, c, s.stage[c].me), c, s.stage[c].me, {}, {REAPER})
    ensures WaitersOk(s, Buried(s, c, s.stage[c].me), s.stage[c].me, {}, {REAPER})
  {
    hide Inv, Moves, IsIdle, CondOk, QueueOk, ActionOk;
    AskFacts(s, c);
    OpenCond(s, REAPER);
    HandlerFacts(s, c);
    ListedPlaces(s, s.conds[REAPER].queue, CondQ(REAPER), s.stage[c].me);
    CondAfter(s, Buried(s, c, s.stage[c].me), c, s.stage[c].me, {}, {REAPER}, REAPER);
  }

  lemma BuriedLists(s: State, c: Core)
    requires Inv(s) && HandlesStop(s, c) && !IsIdle(s, s.stage[c].me)
    ensures ListsOk(s, Buried(s, c, s.stage[c].me), s.stage[c].me)
  {
    hide Inv, IsIdle;
    CoreFacts(s, c);
    QueueFacts(s);
    IdleSameAll(s, Buried(s, c, s.stage[c].me));
    ListedPlaces(s, s.ready, Ready, s.stage[c].me);
    ListedPlaces(s, s.zombies, Zombie, s.stage[c].me);
  }

  /** A condition whose queue lost its head, gained w or stayed as it was. */
  lemma CondAfter(s: State, s': State, c: Core, w: Tid, sx: set<Id>, cx: set<Id>, x: Id)
    requires Moves(s, s', c, w, sx, cx) && x in s.conds && x in s'.conds && CondOk(s, x)
    requires var m, m' := s.conds[x], s'.conds[x];
             && QueueFits(s, s', m.queue, m'.queue, w, CondQ(x))
             && m'.lastAll == m.lastAll && m'.notifier == m.notifier && (m.notifier.Some? ==> m'.epoch == m.epoch)
             && m'.epoch >= m.epoch
             && (w in m'.queue ==> w !in s'.asking && w in m'.since && m'.since[w] == m'.epoch)
             && forall t :: t != w && t in m.since ==> t in m'.since && m'.since[t] == m.since[t]
    ensures CondOk(s', x) && Adjusted(s.conds[x].queue, s'.conds[x].queue, w)
  {
    hide IsIdle, Moves;
    var m, m' := s.conds[x], s'.conds[x];
    QueueAfter(s, s', c, w, sx, cx, m.queue, m'.queue, CondQ(x));
    forall k | 0 <= k < |m'.queue|
      ensures m'.queue[k] !in s'.asking && m'.queue[k] in m'.since && m'.since[m'.queue[k]] <= m'.epoch
      ensures m'.notifier.None? ==> m'.lastAll <= m'.since[m'.queue[k]]
    {
      if m'.queue[k] != w {
        var j :| 0 <= j < |m.queue| && m.queue[j] == m'.queue[k];
        assert SameThread(s, s', m.queue[j]);
      }
    }
  }

  lemma WaitParks(s: State, c: Core)
    requires Inv(s) && HandlesWait(s, c) && s.conds[s.stage[c].act.cond].epoch == s.stage[c].act.epoch
    ensures Parks(s, DoWait(s, c), c, CondQ(s.stage[c].act.cond))
  {
    hide Inv, IsIdle;
    HandlerFacts(s, c);
  }

  /** A thread in the handler of wait is not idle, waits for no grant and carries nobody. */
  lemma WaiterFacts(s: State, c: Core)
    requires Inv(s) && HandlesWait(s, c)
    ensures var me := s.stage[c].me;
            && me in s.place && s.place[me] == OnCore(c) && !IsIdle(s, me) && me !in s.asking && me !in s.carry
            && s.stage[c].act.epoch <= s.conds[s.stage[c].act.cond].epoch
  {
    hide Inv, IsIdle;
    HandlerFacts(s, c);
  }

  lemma WaitQueuedOk(s: State, c: Core)
    requires Inv(s) && HandlesWait(s, c) && s.conds[s.stage[c].act.cond].epoch == s.stage[c].act.epoch
    ensures Inv(DoWait(s, c))
  {
    hide Inv, Moves, HereOk, CarriersOk, ListsOk, IsIdle, CondOk, Parks, SwitchingOk;
    var s', me, x := DoWait(s, c), s.stage[c].me, s.stage[c].act.cond;
    KeysFacts(s);
    WaiterFacts(s, c);
    IdleSameAll(s, s');
    WaitParks(s, c);
    ParkMoves(s, s', c, CondQ(x), {}, {x});
    ParkHere(s, s', c, CondQ(x));
    ParkLists(s, s', c, CondQ(x));
    AskFacts(s, c);
    CondAfter(s, s', c, me, {}, {x}, x);
    MovedOk(s, s', c, me, {}, {x});
  }

  /** A semaphore whose queue lost its head or gained w. */
  lemma SemAfter(s: State, s': State, c: Core, w: Tid, sx: set<Id>, cx: set<Id>, x: Id)
    requires Moves(s, s', c, w, sx, cx) && x in s.sems && x in s'.sems && SemOk(s, x)
    requires var m, m' := s.sems[x], s'.sems[x];
             && QueueFits(s, s', m.queue, m'.queue, w, SemQ(x))
             && (m'.count > 0 ==> m'.queue == []) && m'.initial + m'.ups == m'.count + m'.grants
             && m'.added == m'.removed + m'.queue && m'.asked == m'.grants + |Askers(s'.asking, x)|
             && (w in m'.queue ==> w in s'.asking && s'.asking[w] == x)
    ensures SemOk(s', x) && Adjusted(s.sems[x].queue, s'.sems[x].queue, w)
  {
    hide IsIdle, Moves;
    var m, m' := s.sems[x], s'.sems[x];
    QueueAfter(s, s', c, w, sx, cx, m.queue, m'.queue, SemQ(x));
    forall k | 0 <= k < |m'.queue| ensures m'.queue[k] in s'.asking && s'.asking[m'.queue[k]] == x {
      if m'.queue[k] != w {
        var j :| 0 <= j < |m.queue| && m.queue[j] == m'.queue[k];
        assert SameThread(s, s', m.queue[j]);
      }
    }
  }

  lemma DownQueuedOk(s: State, c: Core)
    requires Inv(s) && HandlesDown(s, c) && s.sems[s.stage[c].act.sem].count == 0
    ensures Inv(DoDown(s, c))
  {
    hide Inv, Moves, HereOk, CarriersOk, ListsOk, IsIdle, SemOk;
    var s', me, x := DoDown(s, c), s.stage[c].me, s.stage[c].act.sem;
    KeysFacts(s);
    HandlerFacts(s, c);
    IdleSameAll(s, s');
    assert Parks(s, s', c, SemQ(x));
    ParkMoves(s, s', c, SemQ(x), {x}, {});
    ParkHere(s, s', c, SemQ(x));
    ParkLists(s, s', c, SemQ(x));
    AskFacts(s, c);
    OpenSem(s, x);
    SemAfter(s, s', c, me, {x}, {}, x);
    MovedOk(s, s', c, me, {x}, {});
  }

  // ---------- threads that are taken up ----------

  /** s' differs from s in that core c has taken w up, at the stage g. */
  ghost predicate Takes(s: State, s': State, c: Core, w: Tid, g: Stage) {
    && c in s.stage && c in s.active && c in s.idle && w in s.place && !s.place[w].OnCore?
    && s'.stage == s.stage[c := g] && s'.active == s.active && s'.idle == s.idle
    && s'.place == s.place[w := OnCore(c)] && s'.saved == s.saved && s'.carry == s.carry && s'.asking == s.asking
    && s'.sems == s.sems && s'.conds.Keys == s.conds.Keys && s'.zombies == s.zombies
    && (forall x :: x in s.conds ==> s.conds[x].epoch == s'.conds[x].epoch)
  }

  lemma TakeMoves(s: State, s': State, c: Core, w: Tid, g: Stage, cx: set<Id>)
    requires Inv(s) && Takes(s, s', c, w, g) && Nearby(s.place[w], c, {}, cx) && (IsIdle(s, w) ==> w == s.idle[c])
    requires forall x :: x in s.conds && x !in cx ==> s'.conds[x] == s.conds[x]
    ensures Moves(s, s', c, w, {}, cx)
  {
    hide Inv;
    KeysFacts(s);
  }

  ghost predicate Takeable(s: State, c: Core, w: Tid, g: Stage)
    requires c in s.stage && c in s.active && c in s.idle && w in s.place
  {
    && w !in s.asking && (IsIdle(s, w) ==> w == s.idle[c])
    && (if s.stage[c].Choosing? then g == Chosen(w, s.stage[c].act)
        else s.stage[c].Run? && g == Requeue(w, s.active[c]) && !IsIdle(s, w))
    && (w in s.carry ==> s.place[w].Ready? || s.place[w].Resting?)
    && !s.place[w].Carried?
  }

  lemma TakeHere(s: State, s': State, c: Core, w: Tid, g: Stage)
    requires Inv(s) && Takes(s, s', c, w, g) && Takeable(s, c, w, g)
    ensures HereOk(s, s', c, w) && CarriersOk(s, s', c, w)
  {
    hide Inv, HereOk, CarriersOk, Takes, Takeable;
    TakeCore(s, s', c, w, g);
    TakeCarriers(s, s', c, w, g);
  }

  lemma TakeCore(s: State, s': State, c: Core, w: Tid, g: Stage)
    requires Inv(s) && Takes(s, s', c, w, g) && Takeable(s, c, w, g)
    ensures HereOk(s, s', c, w)
  {
    hide Inv, Takes, Takeable, CoreOk, ThreadOk, ContextOk, AskOk;
    TakeStage(s, s', c, w, g);
    forall t | Touched(s, c, w, t)
      ensures t in s'.place ==> ThreadOk(s', t) && ContextOk(s', t)
      ensures t in s'.saved ==> t in s'.place
      ensures t in s'.asking ==> AskOk(s', t)
    {
      TakeThread(s, s', c, w, g, t);
    }
  }

  lemma TakeThread(s: State, s': State, c: Core, w: Tid, g: Stage, t: Tid)
    requires Inv(s) && Takes(s, s', c, w, g) && Takeable(s, c, w, g) && Touched(s, c, w, t)
    ensures t in s'.place ==> ThreadOk(s', t) && ContextOk(s', t)
    ensures t in s'.saved ==> t in s'.place
    ensures t in s'.asking ==> AskOk(s', t)
  {
    hide Inv, IsIdle, SemOk, CondOk, QueueOk, CarryOk;
    CoreFacts(s, c);
    QueueFacts(s);
    IdleSameAll(s, s');
  }

  lemma TakeStage(s: State, s': State, c: Core, w: Tid, g: Stage)
    requires Inv(s) && Takes(s, s', c, w, g) && Takeable(s, c, w, g)
    ensures CoreOk(s', c)
  {
    hide Inv, IsIdle, ThreadOk, SemOk, CondOk, QueueOk, CarryOk;
    CoreFacts(s, c);
    QueueFacts(s);
    IdleSameAll(s, s');
  }

  lemma TakeCarriers(s: State, s': State, c: Core, w: Tid, g: Stage)
    requires Inv(s) && Takes(s, s', c, w, g) && Takeable(s, c, w, g)
    ensures CarriersOk(s, s', c, w)
  {
    hide Inv, IsIdle, SemOk, CondOk, QueueOk, CoreOk, ThreadOk, ContextOk, AskOk;
    QueueFacts(s);
    IdleSameAll(s, s');
  }

  lemma PickReadyOk(s: State, c: Core)
    requires Inv(s) && c in s.stage && s.stage[c].Choosing? && s.ready != []
    ensures Inv(Picked(s, c, s.ready[0]).(ready := s.ready[1..]))
  {
    hide Inv, Moves, HereOk, CarriersOk, IsIdle, CoreOk;
    var w, s' := s.ready[0], Picked(s, c, s.ready[0]).(ready := s.ready[1..]);
    CoreFacts(s, c);
    KeysFacts(s);
    QueueFacts(s);
    TakeMoves(s, s', c, w, Chosen(w, s.stage[c].act), {});
    TakeHere(s, s', c, w, Chosen(w, s.stage[c].act));
    ListedPlaces(s, s.zombies, Zombie, w);
    MovedOk(s, s', c, w, {}, {});
  }

  lemma PickIdleOk(s: State, c: Core)
    requires Inv(s) && c in s.stage && c in s.active && c in s.idle && s.stage[c].Choosing? && s.active[c] != s.idle[c]
    requires s.ready == []
    ensures Inv(Picked(s, c, s.idle[c]))
  {
    hide Inv, Moves, HereOk, CarriersOk, IsIdle;
    var w, s' := s.idle[c], Picked(s, c, s.idle[c]);
    CoreFacts(s, c);
    KeysFacts(s);
    QueueFacts(s);
    TakeMoves(s, s', c, w, Chosen(w, s.stage[c].act), {});
    TakeHere(s, s', c, w, Chosen(w, s.stage[c].act));
    MovedOk(s, s', c, w, {}, {});
  }

  lemma WokenOk(s: State, c: Core, x: Id)
    requires Inv(s) && c in s.active && c in s.stage && s.stage[c].Run? && x in s.conds && s.conds[x].queue != []
    requires s.conds[x].notifier.None?
    ensures Inv(Woken(s, c, x))
  {
    hide Inv, Moves, HereOk, CarriersOk, ListsOk, WaitersOk, IsIdle, CondOk, QueueOk;
    var w, s' := s.conds[x].queue[0], Woken(s, c, x);
    KeysFacts(s);
    AskFacts(s, c);
    OpenCondHead(s, x);
    TakeMoves(s, s', c, w, Requeue(w, s.active[c]), {x});
    if w in s.carry {
      CarrierPlaces(s, w);
    }
    TakeHere(s, s', c, w, Requeue(w, s.active[c]));
    WokenWaiters(s, c, x);
    MovedOk(s, s', c, w, {}, {x});
  }

  lemma CarrierPlaces(s: State, u: Tid)
    requires Inv(s) && u in s.carry
    ensures u in s.place && (s.place[u].OnCore? || s.place[u].Ready? || s.place[u].Resting?)
  {
    hide CoreOk, ThreadOk, ContextOk, SemOk, CondOk, AskOk, QueueOk, IsIdle;
    assert CarryOk(s, u);
  }

  lemma WokenWaiters(s: State, c: Core, x: Id)
    requires Inv(s) && c in s.active && x in s.conds && s.conds[x].queue != [] && s.conds[x].notifier.None?
    requires Moves(s, Woken(s, c, x), c, s.conds[x].queue[0], {}, {x})
    ensures WaitersOk(s, Woken(s, c, x), s.conds[x].queue[0], {}, {x})
    ensures ListsOk(s, Woken(s, c, x), s.conds[x].queue[0])
  {
    hide Inv, Moves, IsIdle, CondOk;
    var w, s' := s.conds[x].queue[0], Woken(s, c, x);
    QueueFacts(s);
    AskFacts(s, c);
    OpenCond(s, x);
    OpenCondHead(s, x);
    ListedPlaces(s, s.ready, Ready, w);
    ListedPlaces(s, s.zombies, Zombie, w);
    CondAfter(s, s', c, w, {}, {x}, x);
  }

  lemma OpenCondHead(s: State, x: Id)
    requires x in s.conds && CondOk(s, x) && s.conds[x].queue != []
    ensures var w := s.conds[x].queue[0];
            w in s.place && s.place[w] == CondQ(x) && !IsIdle(s, w) && w !in s.asking && w !in s.conds[x].queue[1..]
  {
  }

  // ---------- threads handed over and delivered ----------

  /** s' differs from s in that the running thread of core c has taken w, placed at p, in hand. */
  ghost predicate HandsOver(s: State, s': State, c: Core, w: Tid, p: Place) {
    && Free(s, c) && c in s.idle && w in s.place && s.place[w] == p && (p.SemQ? || p.CondQ?)
    && s'.stage == s.stage && s'.active == s.active && s'.idle == s.idle
    && s'.place == s.place[w := Carried(s.active[c])] && s'.saved == s.saved && s'.carry == s.carry[s.active[c] := w]
    && s'.asking == s.asking - {w} && s'.sems.Keys == s.sems.Keys && s'.conds.Keys == s.conds.Keys
    && s'.ready == s.ready && s'.zombies == s.zombies
    && (forall x :: x in s.conds ==> s.conds[x].epoch <= s'.conds[x].epoch)
  }

  lemma HandMoves(s: State, s': State, c: Core, w: Tid, p: Place, sx: set<Id>, cx: set<Id>)
    requires Inv(s) && HandsOver(s, s', c, w, p) && !IsIdle(s, w) && Nearby(p, c, sx, cx)
    requires forall x :: x in s.sems && x !in sx ==> s'.sems[x] == s.sems[x]
    requires forall x :: x in s.conds && x !in cx ==> s'.conds[x] == s.conds[x]
    requires w in s.asking ==> s.asking[w] in sx
    ensures Moves(s, s', c, w, sx, cx)
  {
    hide Inv;
    KeysFacts(s);
    ActiveHere(s, c);
    if w in s.asking {
      AskersDrop(s.asking, w);
    } else {
      assert s.asking - {w} == s.asking;
    }
  }

  /** The core runs on; w, which it does not hold, was touched. */
  ghost predicate Bystander(s: State, s': State, c: Core, w: Tid) {
    && Running(s, c) && s'.stage == s.stage && s'.active == s.active && s'.idle == s.idle && !IsIdle(s, w)
    && (w in s.place ==> !s.place[w].OnCore?) && (w in s'.place ==> !s'.place[w].OnCore?)
    && (forall t :: t != w ==> (t in s.place <==> t in s'.place) && (t in s.place ==> s'.place[t] == s.place[t]))
    && (forall t :: t != w ==> (t in s.saved <==> t in s'.saved))
    && (forall t :: t != w ==> (t in s.asking <==> t in s'.asking))
    && w !in s'.asking
  }

  lemma BystanderHere(s: State, s': State, c: Core, w: Tid)
    requires Inv(s) && Bystander(s, s', c, w)
    requires w in s'.place ==> ThreadOk(s', w) && ContextOk(s', w)
    requires w in s'.saved ==> w in s'.place
    ensures HereOk(s, s', c, w)
  {
    hide Inv, IsIdle, SemOk, CondOk, QueueOk;
    CoreFacts(s, c);
    forall t | Touched(s, c, w, t) && t in s'.place ensures ThreadOk(s', t) && ContextOk(s', t) {
      if t != w {
        assert t == s.active[c];
      }
    }
  }

  lemma HandHere(s: State, s': State, c: Core, w: Tid, p: Place)
    requires Inv(s) && HandsOver(s, s', c, w, p) && !IsIdle(s, w)
    ensures HereOk(s, s', c, w) && CarriersOk(s, s', c, w) && ListsOk(s, s', w)
  {
    hide Inv, HereOk, CarriersOk, ListsOk, HandsOver;
    HandCore(s, s', c, w, p);
    HandRest(s, s', c, w, p);
  }

  lemma HandCore(s: State, s': State, c: Core, w: Tid, p: Place)
    requires Inv(s) && HandsOver(s, s', c, w, p) && !IsIdle(s, w)
    ensures HereOk(s, s', c, w)
  {
    hide Inv, IsIdle, HereOk, CoreOk;
    ActiveHere(s, c);
    QueueFacts(s);
    assert Bystander(s, s', c, w);
    BystanderHere(s, s', c, w);
  }

  lemma HandRest(s: State, s': State, c: Core, w: Tid, p: Place)
    requires Inv(s) && HandsOver(s, s', c, w, p) && !IsIdle(s, w)
    ensures CarriersOk(s, s', c, w) && ListsOk(s, s', w)
  {
    hide Inv, IsIdle, SemOk, CondOk, QueueOk, HereOk, CoreOk;
    ActiveHere(s, c);
    QueueFacts(s);
    IdleSameAll(s, s');
    ListedPlaces(s, s.ready, Ready, w);
    ListedPlaces(s, s.zombies, Zombie, w);
  }

  lemma UpHandOk(s: State, c: Core, x: Id)
    requires Inv(s) && CanUp(s, c, x) && s.sems[x].queue != []
    ensures Inv(DoUp(s, c, x))
  {
    hide Inv, Moves, HereOk, CarriersOk, ListsOk, IsIdle, SemOk, QueueOk, Askers, WaitersOk;
    var w, s' := s.sems[x].queue[0], DoUp(s, c, x);
    KeysFacts(s);
    AskFacts(s, c);
    OpenSemHead(s, x);
    HandMoves(s, s', c, w, SemQ(x), {x}, {});
    HandHere(s, s', c, w, SemQ(x));
    UpHandWaiters(s, c, x);
    MovedOk(s, s', c, w, {x}, {});
  }

  lemma UpHandWaiters(s: State, c: Core, x: Id)
    requires Inv(s) && CanUp(s, c, x) && s.sems[x].queue != []
    requires Moves(s, DoUp(s, c, x), c, s.sems[x].queue[0], {x}, {})
    ensures WaitersOk(s, DoUp(s, c, x), s.sems[x].queue[0], {x}, {})
  {
    hide Inv, Moves, IsIdle, SemOk, QueueOk, Askers;
    var w, s' := s.sems[x].queue[0], DoUp(s, c, x);
    AskFacts(s, c);
    OpenSem(s, x);
    OpenSemHead(s, x);
    AskersDrop(s.asking, w);
    var m, m' := s.sems[x], s'.sems[x];
    assert m'.removed + m'.queue == m.removed + ([w] + m.queue[1..]);
    SemAfter(s, s', c, w, {x}, {}, x);
  }

  lemma OpenSemHead(s: State, x: Id)
    requires x in s.sems && SemOk(s, x) && s.sems[x].queue != []
    ensures var w := s.sems[x].queue[0];
            && w in s.place && s.place[w] == SemQ(x) && !IsIdle(s, w) && w in s.asking && s.asking[w] == x
            && w !in s.sems[x].queue[1..]
  {
  }

  lemma NotifyHandOk(s: State, c: Core, x: Id, e: nat)
    requires Inv(s) && Free(s, c) && x in s.conds && s.conds[x].queue != []
    requires s.conds[x].epoch <= e && (s.conds[x].notifier.Some? ==> e == s.conds[x].epoch)
    ensures Inv(DoNotify(s, c, x, e))
  {
    hide Inv, Moves, HereOk, CarriersOk, ListsOk, IsIdle, CondOk, QueueOk, Askers, WaitersOk;
    var w, s' := s.conds[x].queue[0], DoNotify(s, c, x, e);
    KeysFacts(s);
    AskFacts(s, c);
    OpenCondHead(s, x);
    assert s.asking - {w} == s.asking;
    HandMoves(s, s', c, w, CondQ(x), {}, {x});
    HandHere(s, s', c, w, CondQ(x));
    NotifyWaiters(s, c, x, e);
    MovedOk(s, s', c, w, {}, {x});
  }

  lemma NotifyWaiters(s: State, c: Core, x: Id, e: nat)
    requires Inv(s) && Free(s, c) && x in s.conds && s.conds[x].queue != []
    requires s.conds[x].epoch <= e && (s.conds[x].notifier.Some? ==> e == s.conds[x].epoch)
    requires Moves(s, DoNotify(s, c, x, e), c, s.conds[x].queue[0], {}, {x})
    ensures WaitersOk(s, DoNotify(s, c, x, e), s.conds[x].queue[0], {}, {x})
  {
    hide Inv, Moves, IsIdle, CondOk, QueueOk, Askers;
    AskFacts(s, c);
    OpenCond(s, x);
    OpenCondHead(s, x);
    CondAfter(s, DoNotify(s, c, x, e), c, s.conds[x].queue[0], {}, {x}, x);
  }

  lemma DeliverOk(s: State, c: Core)
    requires Inv(s) && Delivering(s, c)
    ensures Inv(DoDeliver(s, s.active[c]))
  {
    hide Inv, Moves, HereOk, CarriersOk, ListsOk, WaitersOk;
    DeliverMoves(s, c);
    DeliverRest(s, c);
    MovedOk(s, DoDeliver(s, s.active[c]), c, s.carry[s.active[c]], {}, {});
  }

  lemma DeliverMoves(s: State, c: Core)
    requires Inv(s) && Delivering(s, c)
    ensures Moves(s, DoDeliver(s, s.active[c]), c, s.carry[s.active[c]], {}, {})
  {
    hide Inv, IsIdle, QueueOk;
    KeysFacts(s);
    ActiveHere(s, c);
    CarriedFacts(s, s.active[c]);
  }

  lemma CarriedFacts(s: State, u: Tid)
    requires Inv(s) && u in s.carry
    ensures var w := s.carry[u];
            w in s.place && s.place[w] == Carried(u) && !IsIdle(s, w) && w !in s.asking && w in s.saved && w != u
  {
    hide CoreOk, ThreadOk, SemOk, CondOk, AskOk, QueueOk, IsIdle;
    assert CarryOk(s, u) && ContextOk(s, s.carry[u]);
  }

  lemma DeliverRest(s: State, c: Core)
    requires Inv(s) && Delivering(s, c)
    ensures var s', w := DoDeliver(s, s.active[c]), s.carry[s.active[c]];
            HereOk(s, s', c, w) && CarriersOk(s, s', c, w) && ListsOk(s, s', w) && WaitersOk(s, s', w, {}, {})
  {
    hide Inv, IsIdle, SemOk, CondOk, QueueOk, HereOk, CoreOk;
    var s', w := DoDeliver(s, s.active[c]), s.carry[s.active[c]];
    ActiveHere(s, c);
    CarriedFacts(s, s.active[c]);
    QueueFacts(s);
    IdleSameAll(s, s');
    assert Bystander(s, s', c, w);
    BystanderHere(s, s', c, w);
  }

  lemma SpawnOk(s: State, c: Core, t: Tid)
    requires Inv(s) && Running(s, c) && t !in s.place && t !in s.carry && t !in s.asking
    ensures Inv(DoSpawn(s, t))
  {
    hide Inv, Moves, HereOk, CarriersOk, ListsOk, WaitersOk;
    SpawnMoves(s, c, t);
    SpawnRest(s, c, t);
    MovedOk(s, DoSpawn(s, t), c, t, {}, {});
  }

  lemma SpawnMoves(s: State, c: Core, t: Tid)
    requires Inv(s) && Running(s, c) && t !in s.place && t !in s.carry && t !in s.asking
    ensures Moves(s, DoSpawn(s, t), c, t, {}, {})
  {
    hide Inv;
    KeysFacts(s);
    ActiveHere(s, c);
  }

  lemma SpawnRest(s: State, c: Core, t: Tid)
    requires Inv(s) && Running(s, c) && t !in s.place && t !in s.carry && t !in s.asking
    ensures var s' := DoSpawn(s, t);
            HereOk(s, s', c, t) && CarriersOk(s, s', c, t) && ListsOk(s, s', t) && WaitersOk(s, s', t, {}, {})
  {
    hide Inv, SemOk, CondOk, QueueOk, IsIdle, HereOk, CoreOk;
    ActiveHere(s, c);
    QueueFacts(s);
    IdleSameAll(s, DoSpawn(s, t));
    IdlePlaced(s);
    QueuedPlaced(s, s.ready, Ready);
    QueuedPlaced(s, s.zombies, Zombie);
    assert Bystander(s, DoSpawn(s, t), c, t);
    BystanderHere(s, DoSpawn(s, t), c, t);
  }

  /** Idle threads never go away. */
  lemma IdlePlaced(s: State)
    requires Inv(s)
    ensures forall t :: IsIdle(s, t) ==> t in s.place
  {
    hide ThreadOk, ContextOk, SemOk, CondOk, AskOk, QueueOk, CarryOk, StageOk;
    forall t | IsIdle(s, t) ensures t in s.place {
      var c :| c in s.idle && s.idle[c] == t;
      assert CoreOk(s, c);
    }
  }

  lemma QueuedPlaced(s: State, q: seq<Tid>, p: Place)
    requires QueueOk(s, q, p)
    ensures forall t :: t in q ==> t in s.place
  {
  }

  lemma ReapOk(s: State, c: Core)
    requires Inv(s) && Running(s, c) && s.zombies != []
    ensures Inv(DoReap(s))
  {
    hide Inv, Moves, HereOk, CarriersOk, ListsOk, WaitersOk;
    ReapMoves(s, c);
    ReapRest(s, c);
    MovedOk(s, DoReap(s), c, s.zombies[0], {}, {});
  }

  lemma ZombieHead(s: State)
    requires Inv(s) && s.zombies != []
    ensures var t := s.zombies[0];
            && t in s.place && s.place[t] == Zombie && !IsIdle(s, t) && t !in s.asking && t !in s.carry &&
                t !in s.zombies[1..]
            && t in s.saved
  {
    hide CoreOk, ThreadOk, SemOk, CondOk, AskOk, IsIdle, CarryOk;
    assert ContextOk(s, s.zombies[0]);
  }

  lemma ReapMoves(s: State, c: Core)
    requires Inv(s) && Running(s, c) && s.zombies != []
    ensures Moves(s, DoReap(s), c, s.zombies[0], {}, {})
  {
    hide Inv;
    KeysFacts(s);
    ActiveHere(s, c);
    ZombieHead(s);
  }

  lemma ReapRest(s: State, c: Core)
    requires Inv(s) && Running(s, c) && s.zombies != []
    ensures var s', t := DoReap(s), s.zombies[0];
            HereOk(s, s', c, t) && CarriersOk(s, s', c, t) && ListsOk(s, s', t) && WaitersOk(s, s', t, {}, {})
  {
    hide Inv, SemOk, CondOk, QueueOk, IsIdle, HereOk, CoreOk;
    ActiveHere(s, c);
    QueueFacts(s);
    ZombieHead(s);
    IdleSameAll(s, DoReap(s));
    assert Bystander(s, DoReap(s), c, s.zombies[0]);
    BystanderHere(s, DoReap(s), c, s.zombies[0]);
    ListedPlaces(s, s.ready, Ready, s.zombies[0]);
  }

  // ---------- all steps ----------

  lemma HandleStopOk(s: State, c: Core)
    requires Inv(s) && HandlesStop(s, c)
    ensures Inv(DoStop(s, c))
  {
    hide Inv, IsIdle, Woken, Buried, Parked;
    if IsIdle(s, s.stage[c].me) {
      RestOk(s, c);
    } else {
      BuriedOk(s, c);
      var s1 := Buried(s, c, s.stage[c].me);
      BuriedShape(s, c);
      if s.conds[REAPER].queue != [] {
        WokenOk(s1, c, REAPER);
      }
    }
  }

  lemma BuriedShape(s: State, c: Core)
    requires HandlesStop(s, c)
    ensures var s1 := Buried(s, c, s.stage[c].me);
            && c in s1.active && c in s1.stage && s1.stage[c].Run? && REAPER in s1.conds
            && s1.conds[REAPER].queue == s.conds[REAPER].queue && s1.conds[REAPER].notifier.None?
  {
  }

  lemma UpOk(s: State, c: Core, x: Id)
    requires Inv(s) && CanUp(s, c, x)
    ensures Inv(DoUp(s, c, x))
  {
    hide Inv, DoUp;
    if s.sems[x].queue == [] {
      UpCountOk(s, c, x);
    } else {
      UpHandOk(s, c, x);
    }
  }

  lemma HandleDownOk(s: State, c: Core)
    requires Inv(s) && HandlesDown(s, c)
    ensures Inv(DoDown(s, c))
  {
    hide Inv, DoDown;
    if s.sems[s.stage[c].act.sem].count > 0 {
      DownGrantedOk(s, c);
    } else {
      DownQueuedOk(s, c);
    }
  }

  lemma HandleWaitOk(s: State, c: Core)
    requires Inv(s) && HandlesWait(s, c)
    ensures Inv(DoWait(s, c))
  {
    hide Inv, IsIdle, ActionOk;
    HandlerFacts(s, c);
    if s.conds[s.stage[c].act.cond].epoch == s.stage[c].act.epoch {
      WaitQueuedOk(s, c);
    } else {
      NotIdleWaiting(s, c);
      RequeueOk(s, c);
    }
  }

  lemma NotIdleWaiting(s: State, c: Core)
    requires Inv(s) && HandlesWait(s, c)
    ensures !IsIdle(s, s.stage[c].me)
  {
    hide Inv;
    HandlerFacts(s, c);
  }

  lemma HandleYieldOk(s: State, c: Core)
    requires Inv(s) && Handling(s, c) && s.stage[c].act.Yield?
    ensures Inv(if IsIdle(s, s.stage[c].me) then Parked(s, c, s.stage[c].me, Resting)
                else At(s, c, Requeue(s.stage[c].me, s.stage[c].next)))
  {
    hide Inv, Parked, At, IsIdle;
    if IsIdle(s, s.stage[c].me) {
      RestOk(s, c);
    } else {
      RequeueOk(s, c);
    }
  }

  lemma CallsOk(s: State, st: Step)
    requires Inv(s) && Enabled(s, st) && (st.CallYield? || st.CallStop? || st.CallWait?)
    ensures Inv(Do(s, st))
  {
    hide Inv, IsIdle;
    ActiveNotAsking(s, st.c);
    IdleSameAll(s, Do(s, st));
    match st
    case CallYield(c) => CallOk(s, c, Yield);
    case CallStop(c) => CallOk(s, c, Stop);
    case CallWait(c, x, e) => CallOk(s, c, Wait(x, e));
  }

  lemma ActiveNotAsking(s: State, c: Core)
    requires Inv(s) && Running(s, c)
    ensures s.active[c] !in s.asking
  {
    hide Inv;
    CoreFacts(s, c);
  }

  lemma NotifiesOk(s: State, st: Step)
    requires Inv(s) && Enabled(s, st)
    requires st.NotifyOne? || st.NotifyAllBegin? || st.NotifyAllTake? || st.NotifyAllEnd?
    ensures Inv(Do(s, st))
  {
    hide Inv;
    match st
    case NotifyOne(c, x) =>
      if s.conds[x].queue == [] {
        NotifyNobodyOk(s, c, x);
      } else {
        NotifyHandOk(s, c, x, s.conds[x].epoch + 1);
      }
    case NotifyAllBegin(c, x) => NotifyAllEndsOk(s, c, x);
    case NotifyAllTake(c, x) => NotifyHandOk(s, c, x, s.conds[x].epoch);
    case NotifyAllEnd(c, x) => NotifyAllEndsOk(s, c, x);
  }

  lemma SwitchesOk(s: State, st: Step)
    requires Inv(s) && Enabled(s, st)
    requires st.PickReady? || st.PickIdle? || st.GiveUp? || st.Activate? || st.Save? || st.Switch? || st.Schedule?
    ensures Inv(Do(s, st))
  {
    hide Inv;
    match st
    case PickReady(c) => PickReadyOk(s, c);
    case PickIdle(c) => PickIdleOk(s, c);
    case GiveUp(c) => GiveUpOk(s, c);
    case Activate(c) => ActivateOk(s, c);
    case Save(c) => SaveOk(s, c);
    case Switch(c) => SwitchOk(s, c);
    case Schedule(c) => ScheduleOk(s, c);
  }

  lemma HandlersOk(s: State, st: Step)
    requires Inv(s) && Enabled(s, st)
    requires st.HandleYield? || st.HandleStop? || st.HandleDown? || st.HandleWait?
    ensures Inv(Do(s, st))
  {
    hide Inv, IsIdle, DoStop, DoDown, DoWait, Parked, At;
    match st
    case HandleYield(c) => HandleYieldOk(s, c);
    case HandleStop(c) => HandleStopOk(s, c);
    case HandleDown(c) => HandleDownOk(s, c);
    case HandleWait(c) => HandleWaitOk(s, c);
  }

  /** The invariant survives every step any core can take. */
  lemma StepKeepsInv(s: State, st: Step)
    requires Inv(s) && Enabled(s, st)
    ensures Inv(Do(s, st))
  {
    hide Inv, DoUp, DoDownBlock, DoDeliver, DoSpawn, DoReap, DoSchedule, IsIdle;
    match st
    case DownNow(c, x) => DownNowOk(s, c, x);
    case DownBlock(c, x) => DownBlockOk(s, c, x);
    case Up(c, x) => UpOk(s, c, x);
    case Deliver(c) => DeliverOk(s, c);
    case Spawn(c, t) => SpawnOk(s, c, t);
    case Reap(c) => ReapOk(s, c);
    case _ =>
      if st.CallYield? || st.CallStop? || st.CallWait? {
        CallsOk(s, st);
      } else if st.NotifyOne? || st.NotifyAllBegin? || st.NotifyAllTake? || st.NotifyAllEnd? {
        NotifiesOk(s, st);
      } else if st.HandleYield? || st.HandleStop? || st.HandleDown? || st.HandleWait? {
        HandlersOk(s, st);
      } else {
        SwitchesOk(s, st);
      }
  }
}
