/**
 * The timer interrupt and the no_preempt flags (kernel/pit.cc, kernel/threads.h, kernel/context.S) on top
 * of Scheduler: a tick may hit a core anywhere between two steps, also inside block() and the switch.
 */
module Preemption {
  import opened Scheduler
  import opened SchedulerSteps
  import opened SchedulerFrames
  import opened SchedulerFacts

  /** flag holds the threads whose no_preempt is set, off the cores whose interrupts are disabled. */
  datatype PState = PState(s: State, flag: set<Tid>, off: set<Core>)

  datatype PStep =
    | Plain(st: Step)
    | Mark(c: Core) // the next thread's flag is set, before it becomes the active one
    | Irq(c: Core, disabled: bool) // code outside block() disables or enables interrupts, or popf does
    | Tick(c: Core)

  ghost predicate PEnabled(p: PState, a: PStep) {
    match a
    case Plain(st) =>
      && Enabled(p.s, st) && st.c in p.s.stage && st.c in p.s.active
      && (st.Activate? ==> p.s.stage[st.c].next in p.flag)
    case Mark(c) => c in p.s.stage && p.s.stage[c].Chosen?
    case Irq(c, _) => Running(p.s, c)
    case Tick(c) => c in p.s.stage && c in p.s.active && c !in p.off
  }

  /** apitHandler: not for idle threads and not if the flag of the active thread is set. */
  ghost predicate Preempts(p: PState, c: Core)
    requires c in p.s.active
  {
    !IsIdle(p.s, p.s.active[c]) && p.s.active[c] !in p.flag
  }

  ghost function FlagAfter(p: PState, st: Step): set<Tid>
    requires Enabled(p.s, st) && st.c in p.s.active && st.c in p.s.stage
  {
    if EntersBlock(st) then p.flag + {p.s.active[st.c]}
    else if st.GiveUp? then p.flag - {p.s.active[st.c]}
    else if st.Switch? then p.flag - {p.s.stage[st.c].me, p.s.stage[st.c].next}
    else if st.Spawn? then p.flag - {st.t}
    else p.flag
  }

  /** A tick that preempts starts block() in whatever stage the core is. */
  ghost function PDo(p: PState, a: PStep): PState
    requires PEnabled(p, a)
  {
    match a
    case Plain(st) =>
      PState(Do(p.s, st), FlagAfter(p, st), if st.Switch? then p.off + {st.c} else p.off)
    case Mark(c) => p.(flag := p.flag + {p.s.stage[c].next})
    case Irq(c, disabled) => p.(off := if disabled then p.off + {c} else p.off - {c})
    case Tick(c) =>
      if Preempts(p, c) then
        PState(At(p.s, c, Choosing(Yield)), p.flag + {p.s.active[c]}, p.off + {c})
      else p
  }

  // ---------- the invariant ----------

  /** Inside block() the flag of t must be set: of the caller, and of the next thread once it is active. */
  ghost predicate Must(s: State, c: Core, t: Tid) {
    c in s.stage && c in s.active &&
    match s.stage[c]
    case Choosing(_) => t == s.active[c]
    case Chosen(_, _) => t == s.active[c]
    case Active(me, next, _) => t == me || t == next
    case Saved(me, next, _) => t == me || t == next
    case _ => false
  }

  ghost predicate May(s: State, c: Core, t: Tid) {
    Must(s, c, t) || (c in s.stage && s.stage[c].Chosen? && t == s.stage[c].next)
  }

  /** The handler and what follows it run with interrupts disabled. */
  ghost predicate Quiet(s: State, c: Core) {
    c in s.stage && (s.stage[c].Handler? || s.stage[c].Requeue?)
  }

  ghost predicate FlagsOk(p: PState) {
    && (forall c, t :: Must(p.s, c, t) ==> t in p.flag)
    && (forall t :: t in p.flag ==> exists c :: May(p.s, c, t))
    && (forall c :: Quiet(p.s, c) ==> c in p.off)
  }

  ghost predicate PInv(p: PState) {
    Inv(p.s) && FlagsOk(p)
  }

  /** Flagged threads belong to the core that flagged them. */
  lemma MayPlaced(s: State, c: Core, t: Tid)
    requires Inv(s) && May(s, c, t)
    ensures t in s.place && s.place[t] == OnCore(c)
  {
    hide ThreadOk, ContextOk, SemOk, CondOk, CarryOk, AskOk, QueueOk, IsIdle, ActionOk;
    assert CoreOk(s, c);
  }

  lemma ActiveIsNext(s: State, c: Core)
    requires Inv(s) && c in s.stage && (s.stage[c].Active? || s.stage[c].Saved?)
    ensures c in s.active && s.stage[c].next == s.active[c]
  {
    hide ThreadOk, ContextOk, SemOk, CondOk, CarryOk, AskOk, QueueOk, IsIdle, ActionOk;
    assert CoreOk(s, c);
  }

  /** A tick preempts exactly a thread that is not idle and runs outside block() and the switch; then it is
      nothing but a yield. */
  lemma TickIsYield(p: PState, c: Core)
    requires PInv(p) && PEnabled(p, Tick(c))
    ensures Preempts(p, c) <==> p.s.stage[c].Run? && !IsIdle(p.s, p.s.active[c])
    ensures Preempts(p, c) ==> Enabled(p.s, CallYield(c)) && PDo(p, Tick(c)).s == Do(p.s, CallYield(c))
    ensures !Preempts(p, c) ==> PDo(p, Tick(c)) == p
  {
    hide Inv, IsIdle;
    if p.s.stage[c].Active? || p.s.stage[c].Saved? {
      ActiveIsNext(p.s, c);
    }
    assert !p.s.stage[c].Run? ==> Must(p.s, c, p.s.active[c]) || Quiet(p.s, c);
    if p.s.stage[c].Run? && p.s.active[c] in p.flag {
      var d :| May(p.s, d, p.s.active[c]);
      MayPlaced(p.s, d, p.s.active[c]);
      RunsHere(p.s, c);
    }
  }

  lemma RunsHere(s: State, c: Core)
    requires Inv(s) && c in s.stage && s.stage[c].Run?
    ensures c in s.active && s.active[c] in s.place && s.place[s.active[c]] == OnCore(c)
  {
    hide ThreadOk, ContextOk, SemOk, CondOk, CarryOk, AskOk, QueueOk, IsIdle, ActionOk;
    assert CoreOk(s, c);
  }

  lemma PStepKeepsInv(p: PState, a: PStep)
    requires PInv(p) && PEnabled(p, a)
    ensures PInv(PDo(p, a))
  {
    hide Inv, Enabled, Do, FlagsOk, IsIdle;
    match a
    case Plain(st) =>
      StepKeepsInv(p.s, st);
      PlainKeepsFlags(p, st);
    case Tick(c) =>
      TickIsYield(p, c);
      if Preempts(p, c) {
        StepKeepsInv(p.s, CallYield(c));
        TickKeepsFlags(p, c);
      }
    case Mark(c) => MarkKeepsFlags(p, c);
    case Irq(c, b) => IrqKeepsFlags(p, c, b);
  }

  lemma IrqKeepsFlags(p: PState, c: Core, b: bool)
    requires PInv(p) && PEnabled(p, Irq(c, b))
    ensures FlagsOk(PDo(p, Irq(c, b)))
  {
    hide Inv;
  }

  lemma MarkKeepsFlags(p: PState, c: Core)
    requires PInv(p) && PEnabled(p, Mark(c))
    ensures FlagsOk(PDo(p, Mark(c)))
  {
    hide Inv;
    var p' := PDo(p, Mark(c));
    assert May(p'.s, c, p.s.stage[c].next);
    forall t | t in p'.flag ensures exists d :: May(p'.s, d, t) {
      if t != p.s.stage[c].next {
        var d :| May(p.s, d, t);
        assert May(p'.s, d, t);
      }
    }
  }

  lemma TickKeepsFlags(p: PState, c: Core)
    requires PInv(p) && PEnabled(p, Tick(c)) && Preempts(p, c) && p.s.stage[c].Run?
    ensures FlagsOk(PDo(p, Tick(c)))
  {
    hide Inv, IsIdle;
    var p' := PDo(p, Tick(c));
    assert May(p'.s, c, p.s.active[c]);
    forall d, t | Must(p'.s, d, t) ensures t in p'.flag {
      assert d != c ==> Must(p.s, d, t);
    }
    forall d | Quiet(p'.s, d) ensures d in p'.off {
      assert Quiet(p.s, d);
    }
    forall t | t in p'.flag ensures exists d :: May(p'.s, d, t) {
      if t != p.s.active[c] {
        var d :| May(p.s, d, t);
        assert May(p'.s, d, t);
      }
    }
  }

  /** Cores other than c flag the same threads as before. */
  lemma OtherFlags(s: State, s': State, st: Step, d: Core, t: Tid)
    requires st.c in s.stage && st.c in s.active && Changes(s, s', st) && d != st.c
    ensures Must(s', d, t) <==> Must(s, d, t)
    ensures May(s', d, t) <==> May(s, d, t)
    ensures Quiet(s', d) <==> Quiet(s, d)
  {
  }

  lemma PlainKeepsFlags(p: PState, st: Step)
    requires PInv(p) && PEnabled(p, Plain(st))
    ensures FlagsOk(PDo(p, Plain(st)))
  {
    hide Inv, Enabled, Do, Changes, Must, May, Quiet, FlagAfter;
    var p' := PDo(p, Plain(st));
    KeysFacts(p.s);
    StepChanges(p.s, st);
    forall c, t | Must(p'.s, c, t) ensures t in p'.flag {
      if c != st.c {
        OtherFlags(p.s, p'.s, st, c, t);
        StaysFlagged(p, st, c, t);
      } else {
        OwnFlags(p, st, t);
      }
    }
    forall t | t in p'.flag ensures exists c :: May(p'.s, c, t) {
      FlagFrom(p, st, t);
    }
    forall c | Quiet(p'.s, c) ensures c in p'.off {
      if c != st.c {
        OtherFlags(p.s, p'.s, st, c, 0);
      } else {
        OwnQuiet(p, st);
      }
    }
  }

  /** A step clears flags of its own core's threads only. */
  lemma StaysFlagged(p: PState, st: Step, d: Core, t: Tid)
    requires PInv(p) && PEnabled(p, Plain(st)) && d != st.c && Must(p.s, d, t) && t in p.flag
    requires st.c in p.s.stage && st.c in p.s.active && Changes(p.s, Do(p.s, st), st)
    ensures t in FlagAfter(p, st)
  {
    hide Inv, Do;
    MayPlaced(p.s, d, t);
    if st.GiveUp? {
      MayPlaced(p.s, st.c, p.s.active[st.c]);
    } else if st.Switch? {
      MayPlaced(p.s, st.c, p.s.stage[st.c].me);
      MayPlaced(p.s, st.c, p.s.stage[st.c].next);
    }
  }

  lemma OwnFlags(p: PState, st: Step, t: Tid)
    requires PInv(p) && PEnabled(p, Plain(st)) && st.c in p.s.stage && st.c in p.s.active
    requires Changes(p.s, Do(p.s, st), st) && Must(Do(p.s, st), st.c, t)
    ensures t in FlagAfter(p, st)
  {
    hide Inv, Do;
    assert !EntersBlock(st) ==> Must(p.s, st.c, t) || (st.Activate? && t == p.s.stage[st.c].next);
  }

  lemma FlagFrom(p: PState, st: Step, t: Tid)
    requires PInv(p) && PEnabled(p, Plain(st)) && st.c in p.s.stage && st.c in p.s.active
    requires Changes(p.s, Do(p.s, st), st) && t in FlagAfter(p, st)
    ensures exists c :: May(Do(p.s, st), c, t)
  {
    hide Inv, Do, Enabled, Changes, May;
    if EntersBlock(st) && t == p.s.active[st.c] {
      CallerMay(p, st);
    } else {
      var d :| May(p.s, d, t);
      if d != st.c {
        OtherFlags(p.s, Do(p.s, st), st, d, t);
      } else {
        OwnMay(p, st, t);
      }
    }
  }

  lemma CallerMay(p: PState, st: Step)
    requires Enabled(p.s, st) && EntersBlock(st) && st.c in p.s.stage && st.c in p.s.active
    requires Changes(p.s, Do(p.s, st), st)
    ensures May(Do(p.s, st), st.c, p.s.active[st.c])
  {
    hide Enabled, Do;
  }

  lemma OwnMay(p: PState, st: Step, t: Tid)
    requires Enabled(p.s, st) && st.c in p.s.stage && st.c in p.s.active && Changes(p.s, Do(p.s, st), st)
    requires May(p.s, st.c, t) && t in FlagAfter(p, st)
    ensures May(Do(p.s, st), st.c, t)
  {
    hide Enabled, Do;
  }

  lemma OwnQuiet(p: PState, st: Step)
    requires PInv(p) && PEnabled(p, Plain(st)) && st.c in p.s.stage && st.c in p.s.active
    requires Changes(p.s, Do(p.s, st), st) && Quiet(Do(p.s, st), st.c)
    ensures st.c in PDo(p, Plain(st)).off
  {
    hide Inv, Do;
    assert !st.Switch? ==> Quiet(p.s, st.c);
  }

  // ---------- runs ----------

  ghost predicate PInitial(p: PState) {
    Initial(p.s) && p.flag == {}
  }

  ghost predicate PIsRun(ps: seq<PState>, acts: seq<PStep>) {
    && |ps| == |acts| + 1 && PInitial(ps[0])
    && forall i :: 0 <= i < |acts| ==> PStepAt(ps, acts, i)
  }

  ghost predicate PStepAt(ps: seq<PState>, acts: seq<PStep>, i: nat)
    requires i < |acts| && |ps| == |acts| + 1
  {
    PEnabled(ps[i], acts[i]) && ps[i + 1] == PDo(ps[i], acts[i])
  }

  /** With ticks at any time, every state of every run satisfies the invariant of Scheduler, so that all
      its consequences hold of preempted threads as well. */
  lemma {:induction false} PRunKeepsInv(ps: seq<PState>, acts: seq<PStep>, i: nat)
    requires PIsRun(ps, acts) && i < |ps|
    ensures PInv(ps[i])
  {
    hide Inv, Initial, PEnabled, PDo, FlagsOk;
    if i == 0 {
      InitialOk(ps[0].s);
      NothingFlagged(ps[0]);
    } else {
      PRunKeepsInv(ps, acts, i - 1);
      assert PStepAt(ps, acts, i - 1);
      PStepKeepsInv(ps[i - 1], acts[i - 1]);
    }
  }

  lemma NothingFlagged(p: PState)
    requires PInitial(p)
    ensures FlagsOk(p)
  {
  }
}
