/**
 * The one-shot barrier over a condition variable (Barrier, kernel/barrier.h; Condition,
 * kernel/condition.h), as interleaved steps. What runs under the mutex is one step.
 */
module Barrier {
  import opened Sets

  type Tid = nat

  datatype Pc =
    | Arriving // before the first lock
    | Releasing // found count zero, before notifyAll
    | Checking // before locking to look at count
    | Blocking(epoch: nat) // inside wait, mutex given up, not queued yet
    | Queued(epoch: nat)
    | Done

  /** size is the number the barrier was made for; notified is set by notifyAll. */
  datatype State = State(pc: map<Tid, Pc>, count: nat, size: nat, epoch: nat, notified: bool)

  datatype Step =
    | Enter(t: Tid) | Arrive(t: Tid) | Check(t: Tid) | GiveUp(t: Tid) | Handle(t: Tid) | Release(t: Tid)

  ghost predicate Initial(s: State) {
    s.size >= 1 && s == State(map[], s.size, s.size, 0, false)
  }

  ghost predicate Enabled(s: State, st: Step) {
    match st
    case Enter(t) => t !in s.pc && |s.pc| < s.size // the barrier is for size callers
    case Arrive(t) => t in s.pc && s.pc[t].Arriving? && s.count > 0
    case Check(t) => t in s.pc && s.pc[t].Checking?
    case GiveUp(t) => t in s.pc && s.pc[t].Blocking? // block() may return at once
    case Handle(t) => t in s.pc && s.pc[t].Blocking? // the action, on the next thread's stack
    case Release(t) => t in s.pc && s.pc[t].Releasing?
  }

  ghost function Woken(pc: map<Tid, Pc>): map<Tid, Pc> {
    map t | t in pc :: if pc[t].Queued? then Checking else pc[t]
  }

  ghost function Do(s: State, st: Step): State
    requires Enabled(s, st)
  {
    match st
    case Enter(t) => s.(pc := s.pc[t := Arriving])
    case Arrive(t) =>
      s.(count := s.count - 1, pc := s.pc[t := if s.count - 1 == 0 then Releasing else Checking])
    case Check(t) => s.(pc := s.pc[t := if s.count != 0 then Blocking(s.epoch) else Done])
    case GiveUp(t) => s.(pc := s.pc[t := Checking])
    case Handle(t) => s.(pc := s.pc[t := if s.pc[t].epoch == s.epoch then Queued(s.epoch) else Checking])
    case Release(t) => s.(pc := Woken(s.pc)[t := Done], epoch := s.epoch + 1, notified := true)
  }

  ghost function Arrived(pc: map<Tid, Pc>): set<Tid> {
    set t | t in pc && !pc[t].Arriving?
  }

  ghost predicate PcOk(s: State, t: Tid)
    requires t in s.pc
  {
    match s.pc[t]
    case Arriving => true
    case Releasing => s.count == 0 && !s.notified
    case Checking => true
    case Blocking(e) => e <= s.epoch && (s.notified ==> e < s.epoch)
    case Queued(e) => e == s.epoch && !s.notified
    case Done => s.count == 0
  }

  ghost predicate IsReleaser(s: State, t: Tid) {
    t in s.pc && s.pc[t].Releasing?
  }

  ghost predicate Inv(s: State) {
    && s.count + |Arrived(s.pc)| == s.size && |s.pc| <= s.size
    && (forall t :: t in s.pc ==> PcOk(s, t))
    && (s.count > 0 ==> !s.notified)
    && (s.count == 0 && !s.notified ==> exists t :: IsReleaser(s, t))
    && (forall t, u :: IsReleaser(s, t) && IsReleaser(s, u) ==> t == u)
  }

  lemma ArrivedMove(pc: map<Tid, Pc>, t: Tid, p: Pc)
    requires t in pc ==> pc[t].Arriving? || !p.Arriving?
    ensures |Arrived(pc[t := p])| ==
      |Arrived(pc)| + (if (t in pc ==> pc[t].Arriving?) && !p.Arriving? then 1 else 0)
  {
    var a, b := Arrived(pc), Arrived(pc[t := p]);
    if (t in pc ==> pc[t].Arriving?) && !p.Arriving? {
      assert b == a + {t} && t !in a;
    } else {
      assert b == a;
    }
  }

  lemma ArrivedAtMost(pc: map<Tid, Pc>)
    ensures |Arrived(pc)| <= |pc|
    ensures |Arrived(pc)| == |pc| ==> forall t :: t in pc ==> !pc[t].Arriving?
  {
    assert Arrived(pc) <= pc.Keys;
    SubsetCard(Arrived(pc), pc.Keys);
    if |Arrived(pc)| == |pc| {
      SubsetEq(Arrived(pc), pc.Keys);
    }
  }

  lemma StepKeepsInv(s: State, st: Step)
    requires Inv(s) && Enabled(s, st)
    ensures Inv(Do(s, st))
  {
    match st
    case Enter(t) => EnterOk(s, t);
    case Arrive(t) => ArriveOk(s, t);
    case Check(t) => CheckOk(s, t);
    case GiveUp(t) => OtherOk(s, Do(s, st), t, Checking);
    case Handle(t) => OtherOk(s, Do(s, st), t, if s.pc[t].epoch == s.epoch then Queued(s.epoch) else Checking);
    case Release(t) => ReleaseOk(s, t);
  }

  /** A step of a thread that is not the releaser and touches nothing but its own progress. */
  lemma OtherOk(s: State, s': State, t: Tid, p: Pc)
    requires Inv(s) && t in s.pc && s' == s.(pc := s.pc[t := p]) && PcOk(s', t)
    requires !s.pc[t].Releasing? && !s.pc[t].Arriving? && !p.Releasing? && !p.Arriving?
    ensures Inv(s')
  {
    ArrivedMove(s.pc, t, p);
    if r :| IsReleaser(s, r) {
      assert IsReleaser(s', r);
    }
    assert forall r :: IsReleaser(s', r) ==> IsReleaser(s, r);
    assert s'.pc.Keys == s.pc.Keys;
    assert |s'.pc| == |s'.pc.Keys| && |s.pc| == |s.pc.Keys|;
  }

  lemma EnterOk(s: State, t: Tid)
    requires Inv(s) && Enabled(s, Enter(t))
    ensures Inv(Do(s, Enter(t)))
  {
    var s' := Do(s, Enter(t));
    ArrivedMove(s.pc, t, Arriving);
    assert s'.pc.Keys == s.pc.Keys + {t};
    assert |s'.pc| == |s'.pc.Keys| && |s.pc| == |s.pc.Keys|;
    ArrivedAtMost(s.pc);
    forall u | u in s'.pc ensures PcOk(s', u) && !IsReleaser(s', u) {
      assert u != t ==> PcOk(s, u);
    }
  }

  lemma CheckOk(s: State, t: Tid)
    requires Inv(s) && Enabled(s, Check(t))
    ensures Inv(Do(s, Check(t)))
  {
    OtherOk(s, Do(s, Check(t)), t, if s.count != 0 then Blocking(s.epoch) else Done);
  }

  lemma ArriveOk(s: State, t: Tid)
    requires Inv(s) && Enabled(s, Arrive(t))
    ensures Inv(Do(s, Arrive(t)))
  {
    var s' := Do(s, Arrive(t));
    ArrivedMove(s.pc, t, s'.pc[t]);
    assert s'.pc.Keys == s.pc.Keys;
    assert |s'.pc| == |s'.pc.Keys| && |s.pc| == |s.pc.Keys|;
    forall u | u in s'.pc ensures PcOk(s', u) {
      assert u != t ==> PcOk(s, u);
    }
    assert forall u :: IsReleaser(s', u) ==> u == t;
    if s'.count == 0 {
      assert IsReleaser(s', t);
    }
  }

  lemma ReleaseOk(s: State, t: Tid)
    requires Inv(s) && Enabled(s, Release(t))
    ensures Inv(Do(s, Release(t)))
  {
    var s' := Do(s, Release(t));
    assert IsReleaser(s, t) && PcOk(s, t);
    assert Arrived(s'.pc) == Arrived(s.pc);
    assert s'.pc.Keys == s.pc.Keys;
    assert |s'.pc| == |s'.pc.Keys| && |s.pc| == |s.pc.Keys|;
    forall u | u in s'.pc ensures PcOk(s', u) {
      assert PcOk(s, u);
      assert IsReleaser(s, u) ==> u == t;
    }
    forall u ensures !IsReleaser(s', u) {
      assert IsReleaser(s', u) ==> IsReleaser(s, u);
    }
  }

  // ---------- runs ----------

  ghost predicate IsRun(ss: seq<State>, sts: seq<Step>) {
    && |ss| == |sts| + 1 && Initial(ss[0])
    && forall i :: 0 <= i < |sts| ==> StepAt(ss, sts, i)
  }

  ghost predicate StepAt(ss: seq<State>, sts: seq<Step>, i: nat)
    requires i < |sts| && |ss| == |sts| + 1
  {
    Enabled(ss[i], sts[i]) && ss[i + 1] == Do(ss[i], sts[i])
  }

  lemma {:induction false} RunKeepsInv(ss: seq<State>, sts: seq<Step>, i: nat)
    requires IsRun(ss, sts) && i < |ss|
    ensures Inv(ss[i])
  {
    if i == 0 {
      assert Arrived(ss[0].pc) == {};
    } else {
      hide Inv;
      RunKeepsInv(ss, sts, i - 1);
      assert StepAt(ss, sts, i - 1);
      StepKeepsInv(ss[i - 1], sts[i - 1]);
    }
  }

  /** Nobody leaves the barrier before all size callers have come. */
  lemma NobodyEarly(s: State, t: Tid)
    requires Inv(s) && t in s.pc && s.pc[t].Done?
    ensures s.count == 0 && |s.pc| == s.size && forall u :: u in s.pc ==> !s.pc[u].Arriving?
  {
    assert PcOk(s, t);
    ArrivedAtMost(s.pc);
  }

  /** Once the releaser has notified, nobody is queued, nobody gets queued any more, and whoever is
      still inside can go on. */
  lemma NobodyStuck(s: State, st: Step)
    requires Inv(s) && s.notified
    ensures forall t :: t in s.pc ==> !s.pc[t].Queued?
    ensures Enabled(s, st) ==> forall t :: t in Do(s, st).pc ==> !Do(s, st).pc[t].Queued?
    ensures forall t :: t in s.pc ==> s.pc[t].Done? || Enabled(s, Check(t)) || Enabled(s, Handle(t))
    ensures Enabled(s, st) && st.Handle? ==> Do(s, st).pc[st.t].Checking?
    ensures Enabled(s, st) && st.Check? ==> Do(s, st).pc[st.t].Done?
  {
    ArrivedAtMost(s.pc);
    forall t | t in s.pc ensures !s.pc[t].Queued? && !s.pc[t].Releasing? && !s.pc[t].Arriving? {
      assert PcOk(s, t);
    }
    if Enabled(s, st) {
      StepKeepsInv(s, st);
      var s' := Do(s, st);
      forall t | t in s'.pc ensures !s'.pc[t].Queued? {
        assert PcOk(s', t);
      }
    }
  }

  /** As long as not all callers are done, somebody can take a step or has yet to call sync. */
  lemma NeverStuck(s: State)
    requires Inv(s) && |s.pc| == s.size && exists t :: t in s.pc && !s.pc[t].Done?
    ensures exists st: Step :: !st.Enter? && Enabled(s, st)
  {
    if t :| t in s.pc && s.pc[t].Arriving? {
      CountPositive(s, t);
      assert Enabled(s, Arrive(t));
    } else if s.notified {
      var t :| t in s.pc && !s.pc[t].Done?;
      NobodyStuck(s, Check(t));
      assert Enabled(s, Check(t)) || Enabled(s, Handle(t));
    } else {
      assert Arrived(s.pc) == s.pc.Keys;
      var r :| IsReleaser(s, r);
      assert Enabled(s, Release(r));
    }
  }

  lemma CountPositive(s: State, t: Tid)
    requires Inv(s) && t in s.pc && s.pc[t].Arriving?
    ensures s.count > 0
  {
    ArrivedAtMost(s.pc);
  }
}
