/**
 * What replies mean, told by the events and replies that came before them: a load gives the word that was
 * last stored. Nothing here speaks of address spaces.
 */
module History {
  import opened Frames
  import opened PageGraph
  import opened Mmu
  import opened EagerCopy
  import opened Boot

  /** Process pid exists after the events es, which got the replies rs. */
  predicate Alive(es: seq<Event>, rs: seq<Reply>, pid: nat)
    requires |es| == |rs|
  {
    if es == [] then false
    else
      var n := |es| - 1;
      var before := Alive(es[..n], rs[..n], pid);
      match es[n]
      case Create(p) => before || (p == pid && rs[n] == Done)
      case Fork(_, child) => before || (child == pid && rs[n] == Done)
      case Load(p, _) => before && !(p == pid && rs[n] == Killed)
      case Store(p, _, _) => before && !(p == pid && rs[n] == Killed)
      case Exec(_) => before
      case Exit(p) => before && !(p == pid && rs[n] == Done)
  }

  /** The word that process pid last stored at va, or that its parent had stored there before the fork; zero
      if there was no such store since the process was created or called exec. */
  function LastStored(es: seq<Event>, rs: seq<Reply>, pid: nat, va: Address): Word
    requires |es| == |rs|
  {
    if es == [] then Word(0, false, false, false, false, false, 0)
    else
      var n := |es| - 1;
      if rs[n] != Done then LastStored(es[..n], rs[..n], pid, va)
      else
        match es[n]
        case Store(p, a, w) => if p == pid && a / 4 == va / 4 then w else LastStored(es[..n], rs[..n], pid, va)
        case Fork(parent, child) => LastStored(es[..n], rs[..n], if child == pid then parent else pid, va)
        case Load(_, _) => LastStored(es[..n], rs[..n], pid, va)
        case Create(p) =>
          if p == pid then Word(0, false, false, false, false, false, 0) else LastStored(es[..n], rs[..n], pid, va)
        case Exec(p) =>
          if p == pid then Word(0, false, false, false, false, false, 0) else LastStored(es[..n], rs[..n], pid, va)
        case Exit(_) => LastStored(es[..n], rs[..n], pid, va)
  }

  /** What boot found: the number of pages of memory and the pages of the two APICs. */
  datatype Layout = Layout(memPages: nat, localApic: nat, ioApic: nat)

  /** User programs may touch the upper half, except for memory that the kernel maps and the two APIC pages. */
  predicate Usable(l: Layout, va: Address) {
    0x8000_0000 <= va && l.memPages <= va / 4096 && va / 4096 != l.localApic && va / 4096 != l.ioApic
  }

  /** The reply to e after all that happened. */
  function Due(l: Layout, es: seq<Event>, rs: seq<Reply>, e: Event): Reply
    requires |es| == |rs|
  {
    match e
    case Create(pid) => if Alive(es, rs, pid) then Refused else Done
    case Fork(parent, child) => if Alive(es, rs, parent) && !Alive(es, rs, child) then Done else Refused
    case Load(pid, va) =>
      if !Alive(es, rs, pid) then Refused else if !Usable(l, va) then Killed else Value(LastStored(es, rs, pid, va))
    case Store(pid, va, _) => if !Alive(es, rs, pid) then Refused else if !Usable(l, va) then Killed else Done
    case Exec(pid) => if Alive(es, rs, pid) then Done else Refused
    case Exit(pid) => if Alive(es, rs, pid) then Done else Refused
  }

  ghost predicate DueAt(l: Layout, es: seq<Event>, rs: seq<Reply>, i: nat)
    requires |es| == |rs| && i < |es|
  {
    rs[i] == Due(l, es[..i], rs[..i], es[i])
  }

  /** Every event of a run got the reply that was due. */
  ghost predicate AllDue(l: Layout, es: seq<Event>, rs: seq<Reply>) {
    |rs| == |es| && forall i :: 0 <= i < |es| ==> DueAt(l, es, rs, i)
  }

  // ---------- spaces and histories ----------

  /** The word that the space s has at va. */
  function Seen(s: Space, va: Address): Word {
    WordOf(PageIn(s, va / 0x1000), WordIndex(va))
  }

  ghost predicate SpaceOk(s: Space) {
    forall n :: n in s ==> s[n].Words? && |s[n].ws| == WORDS_PER_FRAME
  }

  ghost predicate Agrees(s: Spaces, es: seq<Event>, rs: seq<Reply>)
    requires |es| == |rs|
  {
    && (forall pid :: pid in s <==> Alive(es, rs, pid))
    && (forall pid :: pid in s ==> SpaceOk(s[pid]))
    && forall pid, va: Address :: pid in s ==> Seen(s[pid], va) == LastStored(es, rs, pid, va)
  }

  /** An address is its page and the word in it, up to the byte in the word. */
  lemma SameWord(a: Address, b: Address)
    ensures a / 4 == b / 4 <==> a / 0x1000 == b / 0x1000 && WordIndex(a) == WordIndex(b)
  {
    Indices(a);
    Indices(b);
    assert a / 4 == a / 0x1000 * 1024 + WordIndex(a) && b / 4 == b / 0x1000 * 1024 + WordIndex(b);
  }

  lemma SeenAfterStore(s: Space, a: Address, w: Word, va: Address)
    requires SpaceOk(s)
    ensures SpaceOk(Stored(s, a / 0x1000, WordIndex(a), w))
    ensures Seen(Stored(s, a / 0x1000, WordIndex(a), w), va) == if a / 4 == va / 4 then w else Seen(s, va)
  {
    SameWord(a, va);
    Indices(a);
    Indices(va);
  }

  lemma SeenIs(s: Spaces, e: Event)
    requires e.Load? || e.Store?
    ensures e.pid in s ==> Seen(s[e.pid], e.va) == WordOf(PageIn(s[e.pid], e.va / 0x1000), WordIndex(e.va))
  {
  }

  lemma SeenEmpty(va: Address)
    ensures SpaceOk(map[]) && Seen(map[], va) == Word(0, false, false, false, false, false, 0)
  {
    Indices(va);
  }

  /** The kernel's own mappings, as built at boot, leave exactly the usable addresses to programs. */
  lemma LegalIsUsable(k: Kernel, l: Layout, va: Address)
    requires Identity(k, 1, l.memPages, {l.localApic, l.ioApic})
    ensures Legal(k, va) <==> Usable(l, va)
  {
    hide KMaps;
    Indices(va);
    assert IdentityAt(k, 1, l.memPages, {l.localApic, l.ioApic}, Pdi(va), Pti(va));
  }

  lemma FrontOf<T>(s: seq<T>, x: T)
    ensures (s + [x])[..|s|] == s
  {
  }

  lemma AliveAfter(k: Kernel, l: Layout, s: Spaces, es: seq<Event>, rs: seq<Reply>, e: Event, pid: nat)
    requires Identity(k, 1, l.memPages, {l.localApic, l.ioApic}) && |es| == |rs| && Agrees(s, es, rs)
    ensures Next(k, s, e).1 == Due(l, es, rs, e)
    ensures pid in Next(k, s, e).0 <==> Alive(es + [e], rs + [Next(k, s, e).1], pid)
  {
    hide Seen, SpaceOk, Stored, Legal, Usable, Identity, WordOf, PageIn;
    if e.Load? || e.Store? {
      LegalIsUsable(k, l, e.va);
      SeenIs(s, e);
    }
    FrontOf(es, e);
    FrontOf(rs, Next(k, s, e).1);
  }

  lemma SeenAfter(k: Kernel, s: Spaces, es: seq<Event>, rs: seq<Reply>, e: Event, pid: nat, va: Address)
    requires |es| == |rs| && Agrees(s, es, rs) && pid in Next(k, s, e).0
    ensures var s', r := Next(k, s, e).0, Next(k, s, e).1;
            SpaceOk(s'[pid]) && Seen(s'[pid], va) == LastStored(es + [e], rs + [r], pid, va)
  {
    hide Seen, SpaceOk, Stored, Legal, WordOf, PageIn, Alive;
    SeenEmpty(va);
    if e.Store? && e.pid in s {
      SeenAfterStore(s[e.pid], e.va, e.w, va);
    }
    FrontOf(es, e);
    FrontOf(rs, Next(k, s, e).1);
  }

  /** One event: what eager copying replies is due, and spaces and history agree afterwards. */
  lemma EventDue(k: Kernel, l: Layout, s: Spaces, es: seq<Event>, rs: seq<Reply>, e: Event)
    requires Identity(k, 1, l.memPages, {l.localApic, l.ioApic}) && |es| == |rs| && Agrees(s, es, rs)
    ensures Next(k, s, e).1 == Due(l, es, rs, e)
    ensures Agrees(Next(k, s, e).0, es + [e], rs + [Next(k, s, e).1])
  {
    hide Seen, SpaceOk, Next, Due, Alive, LastStored, Identity;
    AliveAfter(k, l, s, es, rs, e, 0);
    forall pid ensures pid in Next(k, s, e).0 <==> Alive(es + [e], rs + [Next(k, s, e).1], pid) {
      AliveAfter(k, l, s, es, rs, e, pid);
    }
    forall pid, va: Address | pid in Next(k, s, e).0
      ensures Seen(Next(k, s, e).0[pid], va) == LastStored(es + [e], rs + [Next(k, s, e).1], pid, va)
    {
      SeenAfter(k, s, es, rs, e, pid, va);
    }
    assert forall pid :: pid in Next(k, s, e).0 ==> SpaceOk(Next(k, s, e).0[pid]) by {
      forall pid | pid in Next(k, s, e).0 ensures SpaceOk(Next(k, s, e).0[pid]) {
        SeenAfter(k, s, es, rs, e, pid, 0);
      }
    }
  }

  lemma {:induction false} RepliesDue(k: Kernel, l: Layout, es: seq<Event>)
    requires Identity(k, 1, l.memPages, {l.localApic, l.ioApic})
    ensures |Replies(k, map[], es)| == |es| && Agrees(After(k, map[], es), es, Replies(k, map[], es))
    ensures AllDue(l, es, Replies(k, map[], es))
  {
    hide Next, Agrees, Due, Identity;
    if es == [] {
      NothingSeen();
    } else {
      var n := |es| - 1;
      var f := es[..n];
      RepliesDue(k, l, f);
      var rs, r := Replies(k, map[], f), Next(k, After(k, map[], f), es[n]).1;
      EventDue(k, l, After(k, map[], f), f, rs, es[n]);
      assert f + [es[n]] == es;
      forall i | 0 <= i < |es| ensures DueAt(l, es, rs + [r], i) {
        assert es[..i] == f[..i] && (rs + [r])[..i] == rs[..i];
        assert i < n ==> DueAt(l, f, rs, i);
        assert rs[..n] == rs;
      }
    }
  }

  lemma NothingSeen()
    ensures Agrees(map[], [], [])
  {
  }
}
