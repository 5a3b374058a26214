/**
 * InterruptSafeLock on many cores (kernel/atomic.h), as interleaved steps of lock and unlock. The
 * field was is one per lock, shared by all cores.
 */
module SafeLock {
  type Core = nat
  type Lock = nat

  /** Where a core is inside lock or unlock; wasDisabled is the local variable of that name. */
  datatype Pc =
    | Outside
    | Tried(l: Lock, wasDisabled: bool) // interrupts disabled, before the exchange
    | Won(l: Lock, wasDisabled: bool) // exchange returned false, before was is stored
    | Opening(l: Lock, wasDisabled: bool) // in unlock, was has been read
    | Opened(l: Lock, wasDisabled: bool) // taken has been reset, before the flag is restored

  /** held is the stack of locks a core holds, base its interrupt state before the outermost lock. */
  datatype State = State(
    taken: map<Lock, bool>, was: map<Lock, bool>, disabled: map<Core, bool>, pc: map<Core, Pc>,
    held: map<Core, seq<Lock>>, base: map<Core, bool>)

  datatype Step =
    | SetFlag(c: Core, b: bool) // code that holds no lock may do this
    | Disable(c: Core, l: Lock)
    | Exchange(c: Core)
    | Store(c: Core)
    | ReadWas(c: Core, l: Lock)
    | Reset(c: Core)
    | Restore(c: Core)

  ghost predicate IsCore(s: State, c: Core) {
    c in s.disabled && c in s.pc && c in s.held && c in s.base
  }

  ghost predicate IsLock(s: State, l: Lock) {
    l in s.taken && l in s.was
  }

  ghost predicate Initial(s: State) {
    && s.pc.Keys == s.disabled.Keys && s.held.Keys == s.disabled.Keys && s.base == s.disabled
    && s.was.Keys == s.taken.Keys
    && (forall c :: c in s.pc ==> s.pc[c] == Outside && s.held[c] == [])
    && (forall l :: l in s.taken ==> !s.taken[l])
  }

  /** Giving up lock l now leaves interrupts disabled as long as a lock is held: it is the only one, or not
      the one taken first, or interrupts were disabled before that one. */
  ghost predicate Harmless(s: State, c: Core, l: Lock)
    requires IsCore(s, c) && s.held[c] != []
  {
    |s.held[c]| == 1 || l != s.held[c][0] || s.base[c]
  }

  /** A lock without its first occurrence in the list. */
  function Without(ls: seq<Lock>, l: Lock): seq<Lock> {
    if ls == [] then [] else if ls[0] == l then ls[1..] else [ls[0]] + Without(ls[1..], l)
  }

  /** unlock is called on a lock that is held, in any order that is harmless. */
  ghost predicate Enabled(s: State, st: Step) {
    IsCore(s, st.c) &&
    match st
    case SetFlag(c, _) => s.pc[c].Outside? && s.held[c] == []
    case Disable(c, l) => s.pc[c].Outside? && IsLock(s, l) && l !in s.held[c]
    case Exchange(c) => s.pc[c].Tried? && IsLock(s, s.pc[c].l)
    case Store(c) => s.pc[c].Won? && IsLock(s, s.pc[c].l)
    case ReadWas(c, l) => s.pc[c].Outside? && l in s.held[c] && Harmless(s, c, l) && IsLock(s, l)
    case Reset(c) => s.pc[c].Opening? && s.pc[c].l in s.held[c]
    case Restore(c) => s.pc[c].Opened?
  }

  /** Interrupts::restore: only ever enables. */
  function Restored(disabled: bool, wasDisabled: bool): bool {
    disabled && wasDisabled
  }

  ghost function Do(s: State, st: Step): State
    requires Enabled(s, st)
  {
    match st
    case SetFlag(c, b) => s.(disabled := s.disabled[c := b], base := s.base[c := b])
    case Disable(c, l) =>
      s.(pc := s.pc[c := Tried(l, s.disabled[c])], disabled := s.disabled[c := true],
         base := if s.held[c] == [] then s.base[c := s.disabled[c]] else s.base)
    case Exchange(c) =>
      var l, wd := s.pc[c].l, s.pc[c].wasDisabled;
      if s.taken[l] then s.(pc := s.pc[c := Outside], disabled := s.disabled[c := Restored(s.disabled[c], wd)])
      else s.(pc := s.pc[c := Won(l, wd)], taken := s.taken[l := true])
    case Store(c) =>
      var l := s.pc[c].l;
      s.(pc := s.pc[c := Outside], was := s.was[l := s.pc[c].wasDisabled], held := s.held[c := s.held[c] + [l]])
    case ReadWas(c, l) => s.(pc := s.pc[c := Opening(l, s.was[l])])
    case Reset(c) =>
      var l := s.pc[c].l;
      s.(pc := s.pc[c := Opened(l, s.pc[c].wasDisabled)], taken := s.taken[l := false],
         held := s.held[c := Without(s.held[c], l)])
    case Restore(c) =>
      s.(pc := s.pc[c := Outside], disabled := s.disabled[c := Restored(s.disabled[c], s.pc[c].wasDisabled)])
  }

  // ---------- the invariant ----------

  /** Core c has lock l: it holds it, or has won it and is about to say so. */
  ghost predicate Has(s: State, c: Core, l: Lock)
    requires IsCore(s, c)
  {
    l in s.held[c] || (s.pc[c].Won? && s.pc[c].l == l)
  }

  /** What the interrupt flag was before the lock that core c is taking, or is about to be after the one it gives up. */
  ghost function Before(s: State, c: Core, n: nat): bool
    requires IsCore(s, c)
  {
    if n == 0 then s.base[c] else true
  }

  ghost predicate HeldOk(s: State, c: Core, i: nat)
    requires IsCore(s, c) && i < |s.held[c]|
  {
    var l := s.held[c][i];
    IsLock(s, l) && s.taken[l] && s.was[l] == Before(s, c, i)
  }

  ghost predicate CoreOk(s: State, c: Core) {
    && IsCore(s, c)
    && (forall i :: 0 <= i < |s.held[c]| ==> HeldOk(s, c, i))
    && (forall i, j :: 0 <= i < j < |s.held[c]| ==> s.held[c][i] != s.held[c][j])
    && (s.held[c] != [] || !s.pc[c].Outside? ==> s.disabled[c])
    && (s.held[c] == [] && s.pc[c].Outside? ==> s.disabled[c] == s.base[c])
    && match s.pc[c]
       case Outside => true
       case Tried(l, wd) => IsLock(s, l) && l !in s.held[c] && wd == Before(s, c, |s.held[c]|)
       case Won(l, wd) => IsLock(s, l) && s.taken[l] && l !in s.held[c] && wd == Before(s, c, |s.held[c]|)
       case Opening(l, wd) => l in s.held[c] && Harmless(s, c, l) && wd == Before(s, c, |s.held[c]| - 1)
       case Opened(l, wd) => wd == Before(s, c, |s.held[c]|)
  }

  ghost predicate Apart(s: State, c: Core, d: Core)
    requires IsCore(s, c) && IsCore(s, d)
  {
    forall l :: !(Has(s, c, l) && Has(s, d, l))
  }

  ghost predicate Inv(s: State) {
    && s.pc.Keys == s.disabled.Keys && s.held.Keys == s.disabled.Keys && s.base.Keys == s.disabled.Keys
    && s.was.Keys == s.taken.Keys
    && (forall c :: c in s.pc ==> CoreOk(s, c))
    && (forall c, d :: c in s.pc && d in s.pc && c != d ==> Apart(s, c, d))
  }

  /** Locks another core has keep their fields, so that core is in order still. */
  lemma OtherCore(s: State, s': State, c: Core, d: Core, l: Lock)
    requires CoreOk(s, d) && c != d && IsCore(s', d)
    requires s'.pc[d] == s.pc[d] && s'.held[d] == s.held[d] && s'.disabled[d] == s.disabled[d]
    requires s'.base[d] == s.base[d]
    requires !Has(s, d, l)
    requires s'.taken.Keys == s.taken.Keys && s'.was.Keys == s.was.Keys
    requires forall m :: m != l && IsLock(s, m) ==> s'.taken[m] == s.taken[m] && s'.was[m] == s.was[m]
    ensures CoreOk(s', d) && forall m :: Has(s', d, m) <==> Has(s, d, m)
  {
    forall i | 0 <= i < |s.held[d]| ensures HeldOk(s', d, i) {
      assert HeldOk(s, d, i);
    }
  }

  lemma CoresAre(s: State)
    requires Inv(s)
    ensures forall d :: d in s.pc ==> IsCore(s, d) && CoreOk(s, d)
  {
    hide HeldOk;
  }

  /** Core d has no lock that it did not have. */
  ghost predicate NoMore(s: State, s': State, d: Core)
    requires IsCore(s, d) && IsCore(s', d)
  {
    forall m :: Has(s', d, m) ==> Has(s, d, m)
  }

  /** A step of core c that changes no lock. */
  lemma NoLockStep(s: State, s': State, c: Core)
    requires Inv(s) && IsCore(s, c) && s'.taken == s.taken && s'.was == s.was && s'.held == s.held
    requires s'.pc.Keys == s.pc.Keys && s'.disabled.Keys == s.disabled.Keys && s'.base.Keys == s.base.Keys
    requires forall d :: d in s.pc && d != c ==>
      s'.pc[d] == s.pc[d] && s'.disabled[d] == s.disabled[d] && s'.base[d] == s.base[d]
    requires CoreOk(s', c) && !s'.pc[c].Won?
    ensures Inv(s')
  {
    hide CoreOk, HeldOk, Apart, NoMore;
    CoresAre(s);
    forall d | d in s'.pc && d != c ensures CoreOk(s', d) && IsCore(s', d) && NoMore(s, s', d) {
      StillOk(s, s', d);
    }
    OwnLocks(s, s', c);
    StayApart(s, s');
  }

  lemma OwnLocks(s: State, s': State, c: Core)
    requires IsCore(s, c) && CoreOk(s', c) && s'.held == s.held && !s'.pc[c].Won?
    ensures IsCore(s', c) && NoMore(s, s', c)
  {
  }

  /** If no core gets a lock the cores stay apart. */
  lemma StayApart(s: State, s': State)
    requires s'.pc.Keys == s.pc.Keys
    requires forall d :: d in s.pc ==> IsCore(s, d) && IsCore(s', d) && NoMore(s, s', d)
    requires forall d, e :: d in s.pc && e in s.pc && d != e ==> Apart(s, d, e)
    ensures forall d, e :: d in s'.pc && e in s'.pc && d != e ==> Apart(s', d, e)
  {
    hide IsCore;
    forall d, e | d in s'.pc && e in s'.pc && d != e ensures Apart(s', d, e) {
      assert Apart(s, d, e);
    }
  }

  lemma StillOk(s: State, s': State, d: Core)
    requires CoreOk(s, d) && IsCore(s', d) && s'.taken == s.taken && s'.was == s.was && s'.held == s.held
    requires s'.pc[d] == s.pc[d] && s'.disabled[d] == s.disabled[d] && s'.base[d] == s.base[d]
    ensures CoreOk(s', d) && IsCore(s, d) && NoMore(s, s', d)
  {
    forall i | 0 <= i < |s.held[d]| ensures HeldOk(s', d, i) {
      assert HeldOk(s, d, i);
    }
  }

  /** A step of core c on lock l, which no other core has. */
  lemma LockStep(s: State, s': State, c: Core, l: Lock)
    requires Inv(s) && IsCore(s, c) && s'.taken.Keys == s.taken.Keys && s'.was.Keys == s.was.Keys
    requires s'.pc.Keys == s.pc.Keys && s'.disabled == s.disabled && s'.base == s.base && s'.held.Keys == s.held.Keys
    requires forall d :: d in s.pc && d != c ==> s'.pc[d] == s.pc[d] && s'.held[d] == s.held[d]
    requires forall m :: m != l && m in s.taken ==> s'.taken[m] == s.taken[m] && s'.was[m] == s.was[m]
    requires forall d :: d in s.pc && d != c ==> IsCore(s, d) && !Has(s, d, l)
    requires CoreOk(s', c) && forall m :: m != l && Has(s', c, m) ==> Has(s, c, m)
    ensures Inv(s')
  {
    hide HeldOk;
    forall d | d in s'.pc && d != c ensures CoreOk(s', d) && (forall m :: Has(s', d, m) <==> Has(s, d, m)) {
      assert CoreOk(s, d);
      OtherCore(s, s', c, d, l);
    }
    forall d, e | d in s'.pc && e in s'.pc && d != e ensures Apart(s', d, e) {
      assert Apart(s, d, e);
    }
  }

  lemma StepKeepsInv(s: State, st: Step)
    requires Inv(s) && Enabled(s, st)
    ensures Inv(Do(s, st))
  {
    hide Inv, Enabled, Do;
    var c := st.c;
    match st
    case SetFlag(_, b) => SetFlagOk(s, c, b);
    case Disable(_, l) => DisableOk(s, c, l);
    case Exchange(_) => ExchangeOk(s, c);
    case Store(_) => StoreOk(s, c);
    case ReadWas(_, l) => ReadWasOk(s, c, l);
    case Reset(_) => ResetOk(s, c);
    case Restore(_) => RestoreOk(s, c);
  }

  lemma SetFlagOk(s: State, c: Core, b: bool)
    requires Inv(s) && Enabled(s, SetFlag(c, b))
    ensures Inv(Do(s, SetFlag(c, b)))
  {
    assert CoreOk(s, c);
    NoLockStep(s, Do(s, SetFlag(c, b)), c);
  }

  lemma DisableOk(s: State, c: Core, l: Lock)
    requires Inv(s) && Enabled(s, Disable(c, l))
    ensures Inv(Do(s, Disable(c, l)))
  {
    var s' := Do(s, Disable(c, l));
    assert CoreOk(s, c);
    forall i | 0 <= i < |s.held[c]| ensures HeldOk(s', c, i) {
      assert HeldOk(s, c, i);
    }
    NoLockStep(s, s', c);
  }

  lemma RestoreOk(s: State, c: Core)
    requires Inv(s) && Enabled(s, Restore(c))
    ensures Inv(Do(s, Restore(c)))
  {
    var s' := Do(s, Restore(c));
    assert CoreOk(s, c);
    forall i | 0 <= i < |s.held[c]| ensures HeldOk(s', c, i) {
      assert HeldOk(s, c, i);
    }
    NoLockStep(s, s', c);
  }

  lemma ReadWasOk(s: State, c: Core, l: Lock)
    requires Inv(s) && Enabled(s, ReadWas(c, l))
    ensures Inv(Do(s, ReadWas(c, l)))
  {
    var s' := Do(s, ReadWas(c, l));
    assert CoreOk(s, c);
    var k :| 0 <= k < |s.held[c]| && s.held[c][k] == l;
    assert HeldOk(s, c, k);
    forall i | 0 <= i < |s.held[c]| ensures HeldOk(s', c, i) {
      assert HeldOk(s, c, i);
    }
    NoLockStep(s, s', c);
  }

  lemma ExchangeOk(s: State, c: Core)
    requires Inv(s) && Enabled(s, Exchange(c))
    ensures Inv(Do(s, Exchange(c)))
  {
    var s', l := Do(s, Exchange(c)), s.pc[c].l;
    assert CoreOk(s, c);
    forall i | 0 <= i < |s.held[c]| ensures HeldOk(s', c, i) {
      assert HeldOk(s, c, i);
    }
    if s.taken[l] {
      NoLockStep(s, s', c);
    } else {
      forall d | d in s.pc && d != c ensures IsCore(s, d) && !Has(s, d, l) {
        NotTaken(s, d, l);
      }
      LockStep(s, s', c, l);
    }
  }

  lemma NotTaken(s: State, d: Core, l: Lock)
    requires Inv(s) && d in s.pc && IsLock(s, l) && !s.taken[l]
    ensures IsCore(s, d) && !Has(s, d, l)
  {
    assert CoreOk(s, d);
    forall i | 0 <= i < |s.held[d]| ensures s.held[d][i] != l {
      assert HeldOk(s, d, i);
    }
  }

  lemma StoreOk(s: State, c: Core)
    requires Inv(s) && Enabled(s, Store(c))
    ensures Inv(Do(s, Store(c)))
  {
    var s', l := Do(s, Store(c)), s.pc[c].l;
    assert CoreOk(s, c) && Has(s, c, l);
    forall i | 0 <= i < |s'.held[c]| ensures HeldOk(s', c, i) {
      if i < |s.held[c]| {
        assert HeldOk(s, c, i);
      }
    }
    forall d | d in s.pc && d != c ensures IsCore(s, d) && !Has(s, d, l) {
      assert CoreOk(s, d) && Apart(s, c, d);
    }
    LockStep(s, s', c, l);
  }

  lemma ResetOk(s: State, c: Core)
    requires Inv(s) && Enabled(s, Reset(c))
    ensures Inv(Do(s, Reset(c)))
  {
    hide HeldOk, Without;
    var s', l := Do(s, Reset(c)), s.pc[c].l;
    ResetCore(s, c);
    assert CoreOk(s, c) && Has(s, c, l);
    forall d | d in s.pc && d != c ensures IsCore(s, d) && !Has(s, d, l) {
      assert CoreOk(s, d) && Apart(s, c, d);
    }
    WithoutIs(s.held[c], l);
    LockStep(s, s', c, l);
  }

  lemma {:induction false} WithoutIs(ls: seq<Lock>, l: Lock)
    requires l in ls && forall i, j :: 0 <= i < j < |ls| ==> ls[i] != ls[j]
    ensures exists k: nat :: IsAt(ls, l, k) && Without(ls, l) == ls[..k] + ls[k + 1..]
    ensures forall m :: m in Without(ls, l) <==> m in ls && m != l
  {
    if ls[0] == l {
      assert IsAt(ls, l, 0);
    } else {
      WithoutIs(ls[1..], l);
      var k: nat :| IsAt(ls[1..], l, k) && Without(ls[1..], l) == ls[1..][..k] + ls[1..][k + 1..];
      assert IsAt(ls, l, k + 1) && ls[..k + 2][1..] == ls[1..][..k + 1];
      assert Without(ls, l) == ls[..k + 1] + ls[k + 2..];
      forall m ensures m in Without(ls, l) <==> m in ls && m != l {
        assert m in ls <==> m == ls[0] || m in ls[1..];
      }
    }
  }

  ghost predicate IsAt(ls: seq<Lock>, l: Lock, k: nat) {
    k < |ls| && ls[k] == l
  }

  lemma ResetCore(s: State, c: Core)
    requires CoreOk(s, c) && Enabled(s, Reset(c)) && s.held.Keys == s.disabled.Keys
    ensures CoreOk(Do(s, Reset(c)), c) && IsLock(s, s.pc[c].l)
  {
    hide Without;
    var s', l, ls := Do(s, Reset(c)), s.pc[c].l, s.held[c];
    WithoutIs(ls, l);
    var k: nat :| IsAt(ls, l, k) && Without(ls, l) == ls[..k] + ls[k + 1..];
    assert HeldOk(s, c, k);
    forall i | 0 <= i < |s'.held[c]| ensures HeldOk(s', c, i) {
      assert HeldOk(s, c, if i < k then i else i + 1);
    }
  }

  // ---------- runs ----------

  ghost predicate IsRun(ss: seq<State>, sts: seq<Step>) {
    && |ss| == |sts| + 1 && Initial(ss[0])
    && forall i :: 0 <= i < |sts| ==> StepAt(ss, sts, i)
  }

  ghost predicate StepAt(ss: seq<State>, sts: seq<Step>, i: nat)
    requires i < |sts| && |ss| == |sts| + 1
  {
    Enabled(ss[i], sts[i]) && ss[i + 1] == Do(ss[i], sts[i])
  }

  lemma {:induction false} RunKeepsInv(ss: seq<State>, sts: seq<Step>, i: nat)
    requires IsRun(ss, sts) && i < |ss|
    ensures Inv(ss[i])
  {
    if i > 0 {
      hide Inv, Initial, Enabled, Do;
      RunKeepsInv(ss, sts, i - 1);
      assert StepAt(ss, sts, i - 1);
      StepKeepsInv(ss[i - 1], sts[i - 1]);
    }
  }

  // ---------- what the invariant means ----------

  /** At most one core has a lock, and whoever holds one has interrupts disabled. */
  lemma Exclusion(s: State, c: Core, d: Core, l: Lock)
    requires Inv(s) && c in s.pc && d in s.pc && IsCore(s, c) && IsCore(s, d) && Has(s, c, l) && Has(s, d, l)
    ensures c == d && s.disabled[c] && IsLock(s, l) && s.taken[l]
  {
    assert CoreOk(s, c) && CoreOk(s, d);
    assert c != d ==> Apart(s, c, d);
    if l in s.held[c] {
      var i :| 0 <= i < |s.held[c]| && s.held[c][i] == l;
      assert HeldOk(s, c, i);
    }
  }

  /** After its outermost unlock a core's interrupt flag is what it was before its outermost lock;
      after an inner one interrupts are still disabled. */
  lemma FlagRestored(s: State, c: Core)
    requires Inv(s) && Enabled(s, Restore(c))
    ensures Do(s, Restore(c)).disabled[c] == if s.held[c] == [] then s.base[c] else true
  {
    assert CoreOk(s, c);
  }

  // ---------- unlocking out of order ----------

  /** The interrupt flag of core c after unlock of any lock it holds, run to its end. */
  ghost function AfterUnlock(s: State, c: Core, l: Lock): bool
    requires IsCore(s, c) && IsLock(s, l)
  {
    Restored(s.disabled[c], s.was[l])
  }

  /** Releasing a lock while others stay held keeps interrupts disabled exactly when it is not the
      outermost one, or interrupts were disabled all along. */
  lemma UnlockOutOfOrder(s: State, c: Core, l: Lock)
    requires Inv(s) && IsCore(s, c) && s.pc[c].Outside? && l in s.held[c] && |s.held[c]| >= 2
    ensures IsLock(s, l)
    ensures AfterUnlock(s, c, l) <==> Harmless(s, c, l)
  {
    assert CoreOk(s, c);
    var i :| 0 <= i < |s.held[c]| && s.held[c][i] == l;
    assert HeldOk(s, c, i);
  }

  /** Core 0 with locks 1 and 2, outside of any lock or inside lock. */
  function Two(taken1: bool, taken2: bool, was2: bool, disabled: bool, pc: Pc, held: seq<Lock>): State {
    State(map[1 := taken1, 2 := taken2], map[1 := false, 2 := was2], map[0 := disabled], map[0 := pc],
          map[0 := held], map[0 := false])
  }

  lemma TakeFirst()
    ensures Goes(Two(false, false, false, false, Outside, []), Disable(0, 1),
                 Two(false, false, false, true, Tried(1, false), []))
    ensures Goes(Two(false, false, false, true, Tried(1, false), []), Exchange(0),
                 Two(true, false, false, true, Won(1, false), []))
    ensures Goes(Two(true, false, false, true, Won(1, false), []), Store(0),
                 Two(true, false, false, true, Outside, [1]))
  {
    var none: seq<Lock> := [];
    assert none + [1] == [1];
  }

  lemma TakeSecond()
    ensures Goes(Two(true, false, false, true, Outside, [1]), Disable(0, 2),
                 Two(true, false, false, true, Tried(2, true), [1]))
    ensures Goes(Two(true, false, false, true, Tried(2, true), [1]), Exchange(0),
                 Two(true, true, false, true, Won(2, true), [1]))
    ensures Goes(Two(true, true, false, true, Won(2, true), [1]), Store(0),
                 Two(true, true, true, true, Outside, [1, 2]))
  {
    assert [1] + [2] == [1, 2];
  }

  ghost predicate Goes(s: State, st: Step, s': State) {
    Enabled(s, st) && s' == Do(s, st)
  }

  /** A run in which two locks are taken in turn with interrupts on; at its end, unlock of the first one
      would turn them on again while the second is held. */
  lemma OutOfOrderExample() returns (ss: seq<State>, sts: seq<Step>)
    ensures IsRun(ss, sts)
    ensures ss[|ss| - 1] == Two(true, true, true, true, Outside, [1, 2])
    ensures !AfterUnlock(ss[|ss| - 1], 0, 1)
  {
    hide Enabled, Do, Two, Initial;
    ss := [Two(false, false, false, false, Outside, []),
           Two(false, false, false, true, Tried(1, false), []),
           Two(true, false, false, true, Won(1, false), []),
           Two(true, false, false, true, Outside, [1]),
           Two(true, false, false, true, Tried(2, true), [1]),
           Two(true, true, false, true, Won(2, true), [1]),
           Two(true, true, true, true, Outside, [1, 2])];
    sts := [Disable(0, 1), Exchange(0), Store(0), Disable(0, 2), Exchange(0), Store(0)];
    TakeFirst();
    TakeSecond();
    BeginAndEnd();
    StepsGo(ss, sts);
  }

  lemma BeginAndEnd()
    ensures Initial(Two(false, false, false, false, Outside, []))
    ensures var s := Two(true, true, true, true, Outside, [1, 2]);
            IsCore(s, 0) && IsLock(s, 1) && !AfterUnlock(s, 0, 1)
  {
  }

  lemma StepsGo(ss: seq<State>, sts: seq<Step>)
    requires |ss| == 7 && |sts| == 6 && Initial(ss[0])
    requires Goes(ss[0], sts[0], ss[1]) && Goes(ss[1], sts[1], ss[2]) && Goes(ss[2], sts[2], ss[3])
    requires Goes(ss[3], sts[3], ss[4]) && Goes(ss[4], sts[4], ss[5]) && Goes(ss[5], sts[5], ss[6])
    ensures IsRun(ss, sts)
  {
    hide Enabled, Do, Initial;
  }
}
