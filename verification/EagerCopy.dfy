/** The meaning of the address-space operations: every process owns its memory outright, and fork
    copies all of it at once. */
module EagerCopy {
  import opened Frames
  import opened PageGraph
  import opened Mmu

  /** The pages of one process by page number; an absent page reads as zeros. */
  type Space = map<nat, Frame>

  type Spaces = map<nat, Space>

  datatype Event =
    | Create(pid: nat)
    | Fork(parent: nat, child: nat)
    | Load(pid: nat, va: Address)
    | Store(pid: nat, va: Address, w: Word)
    | Exec(pid: nat)
    | Exit(pid: nat)

  /** What the caller observes. Refused: no such process, or the new identifier is in use. */
  datatype Reply = Done | Value(w: Word) | Killed | Refused

  function PageIn(s: Space, n: nat): Frame {
    if n in s then s[n] else ZeroFrame()
  }

  function WordOf(f: Frame, o: nat): Word {
    if f.Words? && o < |f.ws| then f.ws[o] else ZERO_WORD
  }

  function WithWord(f: Frame, o: nat, w: Word): Frame {
    if f.Words? && o < |f.ws| then Words(f.ws[o := w]) else f
  }

  function Stored(s: Space, n: nat, o: nat, w: Word): Space {
    s[n := WithWord(PageIn(s, n), o, w)]
  }

  /** A program may touch the upper half of the address space except where the kernel maps devices. */
  ghost predicate Legal(k: Kernel, va: Address) {
    USER_BASE <= va && !KMaps(k, Pdi(va), Pti(va))
  }

  ghost function Next(k: Kernel, s: Spaces, e: Event): (Spaces, Reply) {
    match e
    case Create(pid) => if pid in s then (s, Refused) else (s[pid := map[]], Done)
    case Fork(parent, child) => if parent !in s || child in s then (s, Refused) else (s[child := s[parent]], Done)
    case Load(pid, va) =>
      if pid !in s then (s, Refused)
      else if !Legal(k, va) then (s - {pid}, Killed)
      else (s, Value(WordOf(PageIn(s[pid], va / 0x1000), WordIndex(va))))
    case Store(pid, va, w) =>
      if pid !in s then (s, Refused)
      else if !Legal(k, va) then (s - {pid}, Killed)
      else
        (s[pid := Stored(s[pid], va / 0x1000, WordIndex(va), w)], Done)
    case Exec(pid) => if pid !in s then (s, Refused) else (s[pid := map[]], Done)
    case Exit(pid) => if pid !in s then (s, Refused) else (s - {pid}, Done)
  }

  /** The state and the replies after a run. */
  ghost function After(k: Kernel, s: Spaces, es: seq<Event>): Spaces {
    if es == [] then s else Next(k, After(k, s, es[..|es| - 1]), es[|es| - 1]).0
  }

  ghost function Replies(k: Kernel, s: Spaces, es: seq<Event>): seq<Reply> {
    if es == [] then []
    else Replies(k, s, es[..|es| - 1]) + [Next(k, After(k, s, es[..|es| - 1]), es[|es| - 1]).1]
  }
}
