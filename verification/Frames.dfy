/** Physical frames and the words in them. */
module Frames {
  /** A step either leaves the machine running or hits Debug::panic, after which nothing runs. */
  datatype Outcome<+T> = Running(value: T) | Panicked {
    predicate IsFailure() {
      Panicked?
    }

    function PropagateFailure<U>(): Outcome<U>
      requires Panicked?
    {
      Panicked
    }

    function Extract(): T
      requires Running?
    {
      value
    }
  }

  /**
   * A 32-bit word, decoded as the paging hardware decodes a table entry: the frame number in the
   * upper 20 bits, the five flags the kernel uses, and the remaining low bits. User data is made
   * of the same words.
   */
  datatype Word = Word(frame: nat, p: bool, rw: bool, us: bool, g: bool, ng: bool, rest: nat)

  /** A 4096-byte frame: 1024 words, or 2048 16-bit counters, or a link of the free list. */
  datatype Frame = Words(ws: seq<Word>) | Counters(cs: seq<nat>) | Link(next: nat)

  const WORDS_PER_FRAME := 1024
  const COUNTERS_PER_FRAME := 2048
  const FRAME_SIZE := 4096
  /** The number of the first page of the upper half of the address space, 0x80000000 / 4096. */
  const USER_PAGES := 0x8_0000

  const ZERO_WORD := Word(0, false, false, false, false, false, 0)
  /** A zeroed frame, read as words and read as counters. */
  function ZeroFrame(): (f: Frame)
    ensures f.Words? && |f.ws| == WORDS_PER_FRAME
    ensures forall i :: 0 <= i < WORDS_PER_FRAME ==> f.ws[i] == ZERO_WORD
  {
    Words(seq(WORDS_PER_FRAME, _ => ZERO_WORD))
  }

  function ZeroCounters(): (f: Frame)
    ensures f.Counters? && |f.cs| == COUNTERS_PER_FRAME
    ensures forall i :: 0 <= i < COUNTERS_PER_FRAME ==> f.cs[i] == 0
  {
    Counters(seq(COUNTERS_PER_FRAME, _ => 0))
  }
}
