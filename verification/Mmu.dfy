/** Address translation as the paging hardware does it (Intel SDM volume 3A, sections 4.3, 4.6 and 4.7). */
module Mmu {
  import opened Frames
  import opened PhysMem
  import opened PageGraph

  datatype Access = Access(write: bool, user: bool)

  /** The error code of a page fault: present, write, user. */
  datatype ErrorCode = ErrorCode(p: bool, wr: bool, us: bool)

  datatype Walk = Allowed(frame: nat) | Fault(code: ErrorCode)

  const USER_BASE := 0x8000_0000
  const ADDRESSES := 0x1_0000_0000

  type Address = va: nat | va < ADDRESSES

  /** The directory index, the table index and the word within the page of an address. */
  function Pdi(va: nat): nat {
    va / 0x40_0000
  }

  function Pti(va: nat): nat {
    va / 0x1000 % WORDS_PER_FRAME
  }

  function WordIndex(va: nat): nat {
    va / 4 % WORDS_PER_FRAME
  }

  /** A 32-bit paging walk with CR0.WP set: writes need RW at both levels, user accesses US at both. */
  function Translate(mem: Memory, pd: nat, i: nat, j: nat, acc: Access): Walk {
    var pde := Ent(mem, pd, i);
    var pte := Ent(mem, pde.frame, j);
    if !pde.p || !pte.p then
      Fault(ErrorCode(false, acc.write, acc.user))
    else if (acc.user && !(pde.us && pte.us)) || (acc.write && !(pde.rw && pte.rw)) then
      Fault(ErrorCode(true, acc.write, acc.user))
    else
      Allowed(pte.frame)
  }

  lemma Indices(va: nat)
    requires va < ADDRESSES
    ensures Pdi(va) < 1024 && Pti(va) < 1024 && WordIndex(va) < 1024
    ensures Pdi(va) * WORDS_PER_FRAME + Pti(va) == va / 0x1000
    ensures va == (Pdi(va) * 1024 + Pti(va)) * 4096 + 4 * WordIndex(va) + va % 4
    ensures Pdi(va) * WORDS_PER_FRAME + Pti(va) >= USER_PAGES <==> va >= 0x8000_0000
  {
    var w, q := va / 4, va / 0x1000;
    assert w / 1024 == q && q / 1024 == Pdi(va);
    assert va == 4 * w + va % 4 && w == 1024 * q + WordIndex(va) && q == 1024 * Pdi(va) + Pti(va);
  }
}
