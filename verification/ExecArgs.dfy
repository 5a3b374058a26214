/**
 * The arguments of exec (kernel/sys.cc): collected from the caller's memory into a kernel buffer, the
 * caller's memory is dropped, and the buffer is laid out below the top of the new user stack.
 */
module ExecArgs {
  import opened BlockIo
  import opened HeapBlocks
  import H = Heap

  /** The bytes of a string up to its NUL. */
  type CString = s: seq<Byte> | 0 !in s witness []

  // ---------- argument lists in memory ----------

  function WordAt(m: seq<Byte>, a: nat): (w: nat)
    requires a + 4 <= |m|
    ensures w < WORDS32
  {
    Word32(m[a..a + 4])
  }

  ghost predicate StringAt(m: seq<Byte>, a: nat, s: CString) {
    a + |s| < |m| && m[a..a + |s|] == s && m[a + |s|] == 0
  }

  ghost predicate ArgAt(m: seq<Byte>, a: nat, s: CString) {
    a + 4 <= |m| && WordAt(m, a) != 0 && StringAt(m, WordAt(m, a), s)
  }

  /** A list of pointers to strings at a, ended by a null pointer. */
  ghost predicate ArgsAt(m: seq<Byte>, a: nat, args: seq<CString>) {
    && a + 4 * |args| + 4 <= |m|
    && (forall i :: 0 <= i < |args| ==> ArgAt(m, a + 4 * i, args[i]))
    && WordAt(m, a + 4 * |args|) == 0
  }

  lemma NoNulInside(m: seq<Byte>, a: nat, s: CString)
    requires StringAt(m, a, s)
    ensures forall k {:trigger m[k]} :: a <= k < a + |s| ==> m[k] != 0
  {
    forall k {:trigger m[k]} | a <= k < a + |s| ensures m[k] != 0 {
      assert m[a..a + |s|][k - a] == m[k];
    }
  }

  lemma StringUnique(m: seq<Byte>, a: nat, s: CString, t: CString)
    requires StringAt(m, a, s) && StringAt(m, a, t)
    ensures s == t
  {
    NoNulInside(m, a, s);
    NoNulInside(m, a, t);
  }

  /** The word at position i of the list is null exactly at its end. */
  lemma ListWord(m: seq<Byte>, a: nat, args: seq<CString>, i: nat)
    requires ArgsAt(m, a, args) && i <= |args|
    ensures WordAt(m, a + 4 * i) == 0 <==> i == |args|
    ensures i < |args| ==> StringAt(m, WordAt(m, a + 4 * i), args[i])
  {
    assert i < |args| ==> ArgAt(m, a + 4 * i, args[i]);
  }

  /** Memory holds one list at an address, whatever reads it. */
  lemma ArgsUnique(m: seq<Byte>, a: nat, x: seq<CString>, y: seq<CString>)
    requires ArgsAt(m, a, x) && ArgsAt(m, a, y)
    ensures x == y
  {
    var n := Min(|x|, |y|);
    ListWord(m, a, x, n);
    ListWord(m, a, y, n);
    forall i | 0 <= i < n ensures x[i] == y[i] {
      ListWord(m, a, x, i);
      ListWord(m, a, y, i);
      StringUnique(m, WordAt(m, a + 4 * i), x[i], y[i]);
    }
  }

  // ---------- the layout ----------

  /** The bytes of the strings, each with its NUL. */
  function Bytes(args: seq<CString>): nat {
    if args == [] then 0 else Bytes(args[..|args| - 1]) + |args[|args| - 1]| + 1
  }

  /** Where string i starts in the block. */
  function Offset(args: seq<CString>, i: nat): nat
    requires i <= |args|
  {
    4 * (|args| + 1) + Bytes(args[..i])
  }

  function Size(args: seq<CString>): nat {
    4 * (|args| + 1) + Bytes(args)
  }

  /** What the code computes for it in 32 bits. */
  function Size32(args: seq<CString>): nat {
    Size(args) % WORDS32
  }

  /** The strings follow one another without a gap from behind the pointers to the end of the block. */
  lemma StringsFill(args: seq<CString>)
    ensures Offset(args, 0) == 4 * (|args| + 1) && Offset(args, |args|) == Size(args)
    ensures forall i :: 0 <= i < |args| ==> Offset(args, i + 1) == Offset(args, i) + |args[i]| + 1
  {
    assert args[..|args|] == args;
    forall i | 0 <= i < |args| ensures Offset(args, i + 1) == Offset(args, i) + |args[i]| + 1 {
      assert args[..i + 1][..i] == args[..i];
    }
  }

  lemma {:induction false} OffsetsGrow(args: seq<CString>, i: nat, j: nat)
    requires i < j <= |args|
    ensures Offset(args, i) + |args[i]| + 1 <= Offset(args, j) <= Size(args)
    ensures Offset(args, i) >= 4 * (|args| + 1)
    decreases |args| - i
  {
    StringsFill(args);
    if i + 1 < j {
      OffsetsGrow(args, i + 1, j);
    } else if j < |args| {
      OffsetsGrow(args, j, |args|);
    }
  }

  /** The address of the block below top, in 32-bit arithmetic. */
  function Placed(top: nat, size: nat): (esp: nat)
    requires top < WORDS32 && size < WORDS32
  {
    var room := (top - size - 8) % WORDS32;
    room / 16 * 16 + 8
  }

  /** The block ends below the top of the stack exactly when it fits there with its two words; the stack
      pointer 8 below it is aligned in any case, and no room is wasted beyond the alignment. */
  lemma PlacedBelow(top: nat, size: nat)
    requires top < WORDS32 && size < WORDS32
    ensures Placed(top, size) >= 8 && (Placed(top, size) - 8) % 16 == 0
    ensures Placed(top, size) + size <= top <==> size + 8 <= top
    ensures size + 8 <= top ==> top < Placed(top, size) + size + 16
  {
    var room := (top - size - 8) % WORDS32;
    assert room == if size + 8 <= top then top - size - 8
                   else if top + WORDS32 >= size + 8 then top - size - 8 + WORDS32
                   else top - size - 8 + 2 * WORDS32;
  }

  /** Pointer k of the block at at, counted from rel. */
  ghost predicate PointerAt(b: seq<Byte>, at: nat, args: seq<CString>, rel: nat, k: nat) {
    k < |args| && at + 4 * k + 4 <= |b| && WordAt(b, at + 4 * k) == rel + Offset(args, k)
  }

  ghost predicate PointersAt(b: seq<Byte>, at: nat, args: seq<CString>, rel: nat, lo: nat, hi: nat) {
    forall k :: lo <= k < hi ==> PointerAt(b, at, args, rel, k)
  }

  ghost predicate NullAt(b: seq<Byte>, at: nat, args: seq<CString>) {
    at + 4 * |args| + 4 <= |b| && WordAt(b, at + 4 * |args|) == 0
  }

  ghost predicate ArgStringAt(b: seq<Byte>, at: nat, args: seq<CString>, k: nat) {
    k < |args| && StringAt(b, at + Offset(args, k), args[k])
  }

  /** The first n strings stand at their offsets. */
  ghost predicate StringsAt(b: seq<Byte>, at: nat, args: seq<CString>, n: nat) {
    forall k :: 0 <= k < n ==> ArgStringAt(b, at, args, k)
  }

  /** A block whose first done pointers are absolute and whose others are offsets into it. */
  ghost predicate BlockAt(b: seq<Byte>, at: nat, args: seq<CString>, done: nat) {
    && at + Size(args) <= |b|
    && PointersAt(b, at, args, at, 0, done) && PointersAt(b, at, args, 0, done, |args|)
    && NullAt(b, at, args) && StringsAt(b, at, args, |args|)
  }

  /** What the new program finds at its stack pointer. */
  ghost predicate StartsWith(m: seq<Byte>, sp: nat, args: seq<CString>) {
    sp + 8 <= |m| && WordAt(m, sp) == |args| && WordAt(m, sp + 4) == sp + 8 && ArgsAt(m, sp + 8, args)
  }

  /** The block, argc and argv lie below top at an aligned stack pointer, and nothing else changed. */
  ghost predicate Started(was: seq<Byte>, m: seq<Byte>, top: nat, sp: nat, args: seq<CString>) {
    && sp % 16 == 0 && sp + 8 + Size(args) <= top
    && BlockAt(m, sp + 8, args, |args|) && StartsWith(m, sp, args)
    && SameOutside(was, m, sp, sp + 8 + Size(args))
  }

  lemma BlockIsArgs(m: seq<Byte>, esp: nat, args: seq<CString>)
    requires BlockAt(m, esp, args, |args|)
    ensures ArgsAt(m, esp, args)
  {
    forall i | 0 <= i < |args| ensures ArgAt(m, esp + 4 * i, args[i]) {
      assert PointerAt(m, esp, args, esp, i) && ArgStringAt(m, esp, args, i);
      OffsetsGrow(args, i, |args|);
    }
  }

  // ---------- words and strings under writes ----------

  lemma WordWritten(b: seq<Byte>, a: nat, w: nat)
    requires a + 4 <= |b| && w < WORDS32
    ensures WordAt(Overwrite(b, a, Encode(w)), a) == w
  {
    assert Overwrite(b, a, Encode(w))[a..a + 4] == Encode(w);
  }

  lemma WordKept(b: seq<Byte>, at: nat, x: seq<Byte>, a: nat)
    requires at + |x| <= |b| && a + 4 <= |b| && (a + 4 <= at || at + |x| <= a)
    ensures WordAt(Overwrite(b, at, x), a) == WordAt(b, a)
  {
    assert Overwrite(b, at, x)[a..a + 4] == b[a..a + 4];
  }

  lemma StringKept(b: seq<Byte>, at: nat, x: seq<Byte>, a: nat, s: CString)
    requires at + |x| <= |b| && StringAt(b, a, s) && (a + |s| + 1 <= at || at + |x| <= a)
    ensures StringAt(Overwrite(b, at, x), a, s)
  {
    assert Overwrite(b, at, x)[a..a + |s|] == b[a..a + |s|];
  }

  /** Pointers lo up to hi stay under a write that does not meet them. */
  lemma PointersKept(b: seq<Byte>, w: nat, x: seq<Byte>, at: nat, args: seq<CString>, rel: nat, lo: nat, hi: nat)
    requires w + |x| <= |b| && PointersAt(b, at, args, rel, lo, hi)
    requires w + |x| <= at + 4 * lo || at + 4 * hi <= w
    ensures PointersAt(Overwrite(b, w, x), at, args, rel, lo, hi)
  {
    hide WordAt, Offset, Overwrite;
    forall k | lo <= k < hi ensures PointerAt(Overwrite(b, w, x), at, args, rel, k) {
      assert PointerAt(b, at, args, rel, k);
      WordKept(b, w, x, at + 4 * k);
    }
  }

  /** Strings stay under a write in front of all of them, or behind the first n. */
  lemma StringsKept(b: seq<Byte>, w: nat, x: seq<Byte>, at: nat, args: seq<CString>, n: nat)
    requires w + |x| <= |b| && StringsAt(b, at, args, n) && n <= |args|
    requires w + |x| <= at + 4 * (|args| + 1) || at + Offset(args, n) <= w
    ensures StringsAt(Overwrite(b, w, x), at, args, n)
  {
    hide StringAt, Offset, Overwrite;
    forall k | 0 <= k < n ensures ArgStringAt(Overwrite(b, w, x), at, args, k) {
      assert ArgStringAt(b, at, args, k);
      OffsetsGrow(args, k, n);
      StringKept(b, w, x, at + Offset(args, k), args[k]);
    }
  }

  method StoreWord(m: array<Byte>, a: nat, w: nat)
    requires a + 4 <= m.Length && w < WORDS32
    modifies m
    ensures m[..] == Overwrite(old(m[..]), a, Encode(w))
  {
    var q := w / 0x100;
    var h := q / 0x100;
    m[a] := w % 0x100;
    m[a + 1] := q % 0x100;
    m[a + 2] := h % 0x100;
    m[a + 3] := h / 0x100;
  }

  // ---------- collecting ----------

  /** K::strlen */
  method StrLen(m: array<Byte>, str: nat, ghost s: CString) returns (n: nat)
    requires StringAt(m[..], str, s)
    ensures n == |s|
  {
    NoNulInside(m[..], str, s);
    assert forall k :: str <= k < str + |s| ==> m[k] == m[..][k];
    n := 0;
    while m[str + n] != 0
      invariant n <= |s|
      decreases |s| - n
    {
      n := n + 1;
    }
  }

  /** SYS::exec counts the arguments and, in 32 bits, the bytes of the strings. */
  method CountArgs(m: array<Byte>, argv: nat, ghost args: seq<CString>) returns (argc: nat, sz: nat)
    requires ArgsAt(m[..], argv, args)
    ensures argc == |args| && sz == Bytes(args) % WORDS32
  {
    hide WordAt, StringAt;
    argc, sz := 0, 0;
    while true
      invariant argc <= |args| && sz == Bytes(args[..argc]) % WORDS32
      decreases |args| - argc
    {
      ListWord(m[..], argv, args, argc);
      var str := WordAt(m[..], argv + 4 * argc);
      if str == 0 {
        break;
      }
      var len := StrLen(m, str, args[argc]);
      assert args[..argc + 1][..argc] == args[..argc];
      sz := (sz + len + 1) % WORDS32;
      argc := argc + 1;
    }
    assert args[..argc] == args;
  }

  /** The loop that packs the strings behind their offsets into a buffer. A write that would leave the
      buffer ends the model's run. */
  method Pack(m: array<Byte>, argv: nat, argc: nat, buffer: array<Byte>, ghost args: seq<CString>) returns (ok: bool)
    requires m != buffer && ArgsAt(m[..], argv, args) && argc == |args| && buffer.Length < WORDS32
    modifies buffer
    ensures ok <==> Size(args) <= buffer.Length
    ensures ok ==> BlockAt(buffer[..], 0, args, 0)
  {
    hide WordAt, StringAt, Offset, Overwrite, PointersAt, StringsAt, Encode;
    StringsFill(args);
    var place := 4 * (argc + 1);
    NonePacked(args, buffer[..]);
    var i := 0;
    while i < argc
      invariant i <= argc && place == Offset(args, i) && (i > 0 ==> place <= buffer.Length)
      invariant PointersAt(buffer[..], 0, args, 0, 0, i)
      invariant StringsAt(buffer[..], 0, args, i)
    {
      ListWord(m[..], argv, args, i);
      var str := WordAt(m[..], argv + 4 * i);
      var len := StrLen(m, str, args[i]);
      OffsetsGrow(args, i, argc);
      StringBytes(m[..], str, args[i]);
      if place + len + 1 > buffer.Length {
        return false;
      }
      ghost var b := buffer[..];
      Copy(m, str, buffer, place, len + 1);
      StoreWord(buffer, 4 * i, place);
      PackStep(args, i, b);
      place := place + len + 1;
      i := i + 1;
    }
    if 4 * argc + 4 > buffer.Length {
      return false;
    }
    ghost var b := buffer[..];
    StoreWord(buffer, 4 * argc, 0);
    PackEnd(args, b);
    return true;
  }

  lemma NonePacked(args: seq<CString>, b: seq<Byte>)
    ensures PointersAt(b, 0, args, 0, 0, 0) && StringsAt(b, 0, args, 0)
  {
  }

  lemma StringBytes(m: seq<Byte>, a: nat, s: CString)
    requires StringAt(m, a, s)
    ensures a + |s| + 1 <= |m| && m[a..a + |s| + 1] == s + [0]
  {
  }

  /** One round: string i behind the others, then its offset. */
  lemma PackStep(args: seq<CString>, i: nat, b: seq<Byte>)
    requires i < |args| && Offset(args, i) + |args[i]| + 1 <= |b| < WORDS32
    requires PointersAt(b, 0, args, 0, 0, i) && StringsAt(b, 0, args, i)
    ensures Offset(args, i) >= 4 * i + 4
    ensures var c := Overwrite(b, Offset(args, i), args[i] + [0]);
            var d := Overwrite(c, 4 * i, Encode(Offset(args, i)));
            PointersAt(d, 0, args, 0, 0, i + 1) && StringsAt(d, 0, args, i + 1)
  {
    hide WordAt, StringAt, Offset, Overwrite, Size, Encode;
    OffsetsGrow(args, i, |args|);
    var o := Offset(args, i);
    var x := args[i] + [0];
    var c := Overwrite(b, o, x);
    PointersKept(b, o, x, 0, args, 0, 0, i);
    StringsKept(b, o, x, 0, args, i);
    StringWritten(b, o, args[i]);
    assert StringsAt(c, 0, args, i + 1) by {
      assert ArgStringAt(c, 0, args, i);
    }
    PointersKept(c, 4 * i, Encode(o), 0, args, 0, 0, i);
    StringsKept(c, 4 * i, Encode(o), 0, args, i + 1);
    WordWritten(c, 4 * i, o);
  }

  lemma StringWritten(b: seq<Byte>, a: nat, s: CString)
    requires a + |s| + 1 <= |b|
    ensures StringAt(Overwrite(b, a, s + [0]), a, s)
  {
    var c := Overwrite(b, a, s + [0]);
    assert c[a..a + |s|] == s;
  }

  lemma PackEnd(args: seq<CString>, b: seq<Byte>)
    requires |b| >= Size(args) && PointersAt(b, 0, args, 0, 0, |args|) && StringsAt(b, 0, args, |args|)
    ensures 4 * |args| + 4 <= |b| && BlockAt(Overwrite(b, 4 * |args|, Encode(0)), 0, args, 0)
  {
    hide WordAt, StringAt, Overwrite, Encode;
    WordWritten(b, 4 * |args|, 0);
    PointersKept(b, 4 * |args|, Encode(0), 0, args, 0, 0, |args|);
    StringsKept(b, 4 * |args|, Encode(0), 0, args, |args|);
  }

  // ---------- laying out ----------

  /** Copying the block out of the buffer moves it as a whole. */
  lemma BlockMoved(args: seq<CString>, buffer: seq<Byte>, m: seq<Byte>, esp: nat)
    requires BlockAt(buffer, 0, args, 0) && esp + Size(args) <= |m|
    ensures BlockAt(Overwrite(m, esp, buffer[..Size(args)]), esp, args, 0)
  {
    hide Word32, Offset, Overwrite;
    var b := buffer[..Size(args)];
    var n := Overwrite(m, esp, b);
    StringsFill(args);
    forall k | 0 <= k < |args| ensures PointerAt(n, esp, args, 0, k) {
      assert PointerAt(buffer, 0, args, 0, k);
      Within(buffer, Size(args), m, esp, 4 * k, 4);
    }
    forall k | 0 <= k < |args| ensures ArgStringAt(n, esp, args, k) {
      assert ArgStringAt(buffer, 0, args, k);
      OffsetsGrow(args, k, |args|);
      var o := Offset(args, k);
      Within(buffer, Size(args), m, esp, o, |args[k]|);
      Within(buffer, Size(args), m, esp, o + |args[k]|, 1);
      assert n[esp + o + |args[k]|..][..1][0] == buffer[o + |args[k]|..][..1][0];
    }
    Within(buffer, Size(args), m, esp, 4 * |args|, 4);
  }

  lemma Within(b: seq<Byte>, size: nat, m: seq<Byte>, esp: nat, o: nat, len: nat)
    requires esp + size <= |m| && size <= |b| && o + len <= size
    ensures Overwrite(m, esp, b[..size])[esp + o..esp + o + len] == b[o..o + len]
  {
  }

  /** One pointer is relocated. */
  lemma Relocated(args: seq<CString>, m: seq<Byte>, esp: nat, i: nat)
    requires i < |args| && esp + Size(args) < WORDS32 && BlockAt(m, esp, args, i)
    ensures esp + Offset(args, i) < WORDS32
    ensures WordAt(m, esp + 4 * i) == Offset(args, i)
    ensures BlockAt(Overwrite(m, esp + 4 * i, Encode(esp + Offset(args, i))), esp, args, i + 1)
  {
    hide WordAt, StringAt, Overwrite, Encode, Offset;
    StringsFill(args);
    OffsetsGrow(args, i, |args|);
    assert PointerAt(m, esp, args, 0, i);
    var x := Encode(esp + Offset(args, i));
    PointersKept(m, esp + 4 * i, x, esp, args, esp, 0, i);
    assert PointersAt(m, esp, args, 0, i + 1, |args|);
    PointersKept(m, esp + 4 * i, x, esp, args, 0, i + 1, |args|);
    StringsKept(m, esp + 4 * i, x, esp, args, |args|);
    WordKept(m, esp + 4 * i, x, esp + 4 * |args|);
    WordWritten(m, esp + 4 * i, esp + Offset(args, i));
  }

  /** A write below the block leaves it. */
  lemma BlockKept(args: seq<CString>, m: seq<Byte>, esp: nat, a: nat, x: seq<Byte>)
    requires BlockAt(m, esp, args, |args|) && a + |x| <= esp
    ensures BlockAt(Overwrite(m, a, x), esp, args, |args|)
  {
    hide WordAt, StringAt, Overwrite, Offset;
    PointersKept(m, a, x, esp, args, esp, 0, |args|);
    StringsKept(m, a, x, esp, args, |args|);
    WordKept(m, a, x, esp + 4 * |args|);
  }

  /** m and n differ at most from lo up to hi. */
  ghost predicate SameOutside(m: seq<Byte>, n: seq<Byte>, lo: nat, hi: nat) {
    |m| == |n| && forall k :: 0 <= k < |m| && !(lo <= k < hi) ==> m[k] == n[k]
  }

  lemma SameAtFirst(m: seq<Byte>, lo: nat, hi: nat)
    ensures SameOutside(m, m, lo, hi)
  {
  }

  lemma OutsideKept(m: seq<Byte>, n: seq<Byte>, lo: nat, hi: nat, a: nat, x: seq<Byte>)
    requires SameOutside(m, n, lo, hi) && a + |x| <= |n| && lo <= a && a + |x| <= hi
    ensures SameOutside(m, Overwrite(n, a, x), lo, hi)
  {
  }

  lemma BlockFits(args: seq<CString>, b: seq<Byte>)
    requires BlockAt(b, 0, args, 0)
    ensures Size(args) <= |b|
  {
  }

  /** The second half of exec, in the new address space. A block that would end above the top of the
      stack ends the model's run before it is copied: None. */
  method LayOut(image: array<Byte>, top: nat, argc: nat, buffer: array<Byte>, sz: nat, ghost args: seq<CString>)
    returns (r: Option<nat>)
    requires image != buffer && image.Length == WORDS32 && argc == |args| && top < WORDS32
    requires sz == Size(args) < WORDS32 && BlockAt(buffer[..], 0, args, 0)
    modifies image
    ensures r.None? <==> Size(args) + 8 > top
    ensures r.None? ==> image[..] == old(image[..])
    ensures r.Some? ==> Started(old(image[..]), image[..], top, r.value, args)
  {
    hide BlockAt, Placed, Overwrite, Encode, WordAt, Offset, SameOutside;
    PlacedBelow(top, sz);
    BlockFits(args, buffer[..]);
    ghost var was := image[..];
    var esp := Placed(top, sz);
    if esp + sz > top {
      return None;
    }
    Copy(buffer, 0, image, esp, sz);
    assert buffer[0..sz] == buffer[..][..sz];
    BlockMoved(args, buffer[..], was, esp);
    SameAtFirst(was, esp - 8, esp + Size(args));
    OutsideKept(was, was, esp - 8, esp + Size(args), esp, buffer[..][..sz]);
    var i := 0;
    while i < argc
      invariant i <= argc && BlockAt(image[..], esp, args, i)
      invariant SameOutside(was, image[..], esp - 8, esp + Size(args))
    {
      Relocated(args, image[..], esp, i);
      OutsideKept(was, image[..], esp - 8, esp + Size(args), esp + 4 * i, Encode(esp + Offset(args, i)));
      StoreWord(image, esp + 4 * i, WordAt(image[..], esp + 4 * i) + esp);
      i := i + 1;
    }
    StoreBelow(args, image[..], esp, was);
    StoreWord(image, esp - 8, argc);
    StoreWord(image, esp - 4, esp);
    BlockIsArgs(image[..], esp, args);
    r := Some(esp - 8);
  }

  /** The two words below the block. */
  lemma StoreBelow(args: seq<CString>, m: seq<Byte>, esp: nat, was: seq<Byte>)
    requires BlockAt(m, esp, args, |args|) && 8 <= esp < WORDS32 && |args| < WORDS32
    requires SameOutside(was, m, esp - 8, esp + Size(args))
    ensures esp <= |m|
    ensures var n := Overwrite(Overwrite(m, esp - 8, Encode(|args|)), esp - 4, Encode(esp));
            && BlockAt(n, esp, args, |args|) && WordAt(n, esp - 8) == |args| && WordAt(n, esp - 4) == esp
            && SameOutside(was, n, esp - 8, esp + Size(args))
  {
    assert esp <= |m|;
    hide BlockAt, Overwrite, Encode, WordAt, SameOutside;
    var x := Encode(|args|);
    var n := Overwrite(m, esp - 8, x);
    BlockKept(args, m, esp, esp - 8, x);
    WordWritten(m, esp - 8, |args|);
    OutsideKept(was, m, esp - 8, esp + Size(args), esp - 8, x);
    BlockKept(args, n, esp, esp - 4, Encode(esp));
    WordWritten(n, esp - 4, esp);
    WordKept(n, esp - 4, Encode(esp), esp - 8);
    OutsideKept(was, n, esp - 8, esp + Size(args), esp - 4, Encode(esp));
  }

  // ---------- the buffer ----------

  /** The bytes of the block malloc gives for a request: at least those of the block size it computes, and
      up to three integers more that were too few to be split off. */
  ghost predicate GrantedFor(sz: nat, payload: nat)
    requires sz < WORDS32
  {
    if sz == 0 then payload == 0 else 4 * (H.Ints(sz) - 2) <= payload <= 4 * (H.Ints(sz) - 2) + 12
  }

  /** No available block is large enough. */
  ghost predicate Refused(blk: Blocks, free: seq<nat>, sz: nat)
    requires sz < WORDS32
  {
    sz != 0 && forall j :: 0 <= j < |free| ==> !H.Fits(blk, free, H.Ints(sz), j)
  }

  /** What malloc grants holds the block exactly when neither the sum nor the rounding in malloc wraps. */
  lemma GrantHolds(args: seq<CString>, payload: nat)
    requires GrantedFor(Size32(args), payload)
    ensures Size(args) <= payload <==> Size(args) < 0xFFFF_FFFD
  {
    if Size32(args) > 0 {
      H.RequestHonoured(Size32(args));
    }
    assert Size32(args) >= 0xFFFF_FFFD ==> H.Ints(Size32(args)) == 4;
  }

  /** operator new[]: the pointer and the number of bytes behind it. */
  method NewBytes(heap: H.Heap, sz: nat) returns (p: H.Pointer, payload: nat)
    requires heap.Inv() && sz < WORDS32
    modifies heap, heap.words
    ensures heap.Inv()
    ensures p == H.Null <==> Refused(old(heap.blk), old(heap.free), sz)
    ensures p != H.Null ==> GrantedFor(sz, payload) && payload < WORDS32
    ensures p != H.Null ==> Given(old(heap.words[..]), old(heap.blk), old(heap.free),
                                  heap.words[..], heap.blk, heap.free, p)
  {
    ghost var a, blk, free, avail := heap.words[..], heap.blk, heap.free, heap.avail;
    ghost var k;
    p, k := heap.Malloc(sz);
    payload := 0;
    if p != H.Null && sz != 0 {
      H.AllottedLive(a, heap.words[..], blk, free, avail, heap.blk, heap.free, k, H.Ints(sz));
      H.BlockState(heap.words[..], heap.blk, heap.free, heap.avail, p.index - 1);
      payload := 4 * (Abs(heap.words[p.index - 1]) - 2);
    }
  }

  /** The heap has one live block more, at p, unless p is the address for an empty request; contents of
      the others are as they were. */
  ghost predicate Given(a: seq<int>, blk: Blocks, free: seq<nat>, a': seq<int>, blk': Blocks,
                        free': seq<nat>, p: H.Pointer)
  {
    && p.To? && PayloadKept(a, a', blk, free, {})
    && (p.index == 0 ==> blk' == blk && free' == free && a' == a)
    && (p.index != 0 ==>
        && (forall b :: H.LiveBlock(a', blk', free', b) <==> b == p.index - 1 || H.LiveBlock(a, blk, free, b))
        && !H.LiveBlock(a, blk, free, p.index - 1)
        && forall b :: H.LiveBlock(a, blk, free, b) ==> b in blk' && blk'[b] == blk[b])
  }

  /** Live blocks are the same in both heaps, with the same contents. */
  ghost predicate SameLive(a: seq<int>, blk: Blocks, free: seq<nat>, a': seq<int>, blk': Blocks,
                           free': seq<nat>)
  {
    forall b :: (H.LiveBlock(a', blk', free', b) <==> H.LiveBlock(a, blk, free, b)) &&
      (H.LiveBlock(a, blk, free, b) ==> b in blk' && blk'[b] == blk[b] && SamePayload(a, a', b, blk[b]))
  }

  // ---------- the new program ----------

  /** A word as the processor loads it. */
  method LoadWord(m: array<Byte>, a: nat) returns (w: nat)
    requires a + 4 <= m.Length
    ensures w == WordAt(m[..], a)
  {
    var b0: int, b1: int, b2: int, b3: int := m[a], m[a + 1], m[a + 2], m[a + 3];
    w := b0 + 0x100 * b1 + 0x1_0000 * b2 + 0x100_0000 * b3;
    assert m[..][a..a + 4] == [m[a], m[a + 1], m[a + 2], m[a + 3]];
  }

  /** What main finds as its parameters when start calls it: argc stands where the stack pointer was, argv
      behind it, and argv[argc] is null. */
  method MainParameters(m: array<Byte>, sp: nat, ghost args: seq<CString>) returns (argc: nat, argv: seq<CString>)
    requires StartsWith(m[..], sp, args)
    ensures argc == |args| && argv == args
  {
    hide WordAt, StringAt;
    argc := LoadWord(m, sp);
    var at := LoadWord(m, sp + 4);
    argv := [];
    var i := 0;
    while i < argc
      invariant i <= argc && argv == args[..i]
    {
      ListWord(m[..], sp + 8, args, i);
      var str := LoadWord(m, at + 4 * i);
      var len := StrLen(m, str, args[i]);
      StringBytes(m[..], str, args[i]);
      assert m[str..str + len] == m[..][str..str + len + 1][..len] == args[i];
      argv := argv + [m[str..str + len]];
      i := i + 1;
    }
    ListWord(m[..], sp + 8, args, argc);
    var last := LoadWord(m, at + 4 * argc);
    assert last == 0;
  }

  // ---------- both halves ----------

  /** How exec ends: the model stops where a write would leave the buffer or the stack. */
  datatype Result = Runs(sp: nat) | BadHeader | NoMemory | BufferOverrun | AboveTop

  /** Both halves: memory is what the caller of exec sees, image what the new program is loaded into. The
      buffer is a block of the kernel's heap, given back at the end. */
  method Exec(header: bool, memory: array<Byte>, argv: nat, heap: H.Heap, image: array<Byte>, top: nat,
              ghost args: seq<CString>)
    returns (r: Result)
    requires memory != image && image.Length == WORDS32 && top < WORDS32
    requires heap.Inv() && ArgsAt(memory[..], argv, args)
    modifies image, heap, heap.words
    ensures heap.Inv()
    ensures r.BadHeader? <==> !header
    ensures r.NoMemory? <==> header && Refused(old(heap.blk), old(heap.free), Size32(args))
    ensures r.BufferOverrun? <==> header && !r.NoMemory? && Size(args) >= 0xFFFF_FFFD
    ensures r.AboveTop? <==> header && !r.NoMemory? && Size(args) < 0xFFFF_FFFD && Size(args) + 8 > top
    ensures !r.Runs? ==> image[..] == old(image[..])
    ensures r.Runs? ==> Started(old(image[..]), image[..], top, r.sp, args)
    ensures r.Runs? ==> SameLive(old(heap.words[..]), old(heap.blk), old(heap.free),
                                 heap.words[..], heap.blk, heap.free)
  {
    hide WordAt, Started, BlockAt, ArgsAt, GrantedFor, Refused, Given, SameLive, Size, Size32, Bytes, H.Heap.Inv;
    var argc, sz := CountArgs(memory, argv, args);
    if !header {
      return BadHeader;
    }
    SizeWraps(args);
    sz := (sz + 4 * (argc + 1)) % WORDS32;
    var p, payload := NewBytes(heap, sz);
    if p == H.Null {
      return NoMemory;
    }
    GrantHolds(args, payload);
    var buffer := new Byte[payload];
    var packed := Pack(memory, argv, argc, buffer, args);
    if !packed {
      return BufferOverrun;
    }
    var sp := LayOut(image, top, argc, buffer, sz, args);
    if sp.None? {
      return AboveTop;
    }
    DeleteBytes(heap, p, old(heap.words[..]), old(heap.blk), old(heap.free));
    r := Runs(sp.value);
  }

  lemma SizeWraps(args: seq<CString>)
    ensures (Bytes(args) % WORDS32 + 4 * (|args| + 1)) % WORDS32 == Size32(args)
    ensures Size(args) < WORDS32 ==> Size32(args) == Size(args)
  {
    hide Bytes;
    SumWraps32(Bytes(args), 4 * (|args| + 1));
  }

  lemma SumWraps32(x: nat, y: nat)
    ensures (x % WORDS32 + y) % WORDS32 == (x + y) % WORDS32
  {
    var q, r := x / WORDS32, x % WORDS32 + y;
    DivUnique(q + r / WORDS32, r % WORDS32, WORDS32);
    assert x + y == (q + r / WORDS32) * WORDS32 + r % WORDS32;
  }

  /** operator delete[] of what operator new[] gave. */
  method DeleteBytes(heap: H.Heap, p: H.Pointer, ghost a: seq<int>, ghost blk: Blocks, ghost free: seq<nat>)
    requires heap.Inv() && Given(a, blk, free, heap.words[..], heap.blk, heap.free, p)
    modifies heap, heap.words
    ensures heap.Inv() && SameLive(a, blk, free, heap.words[..], heap.blk, heap.free)
  {
    ghost var a1, blk1, free1, avail1 := heap.words[..], heap.blk, heap.free, heap.avail;
    var done := heap.Free(p);
    if p.index == 0 {
      SameAsBefore(a, blk, free, avail1);
    } else {
      ghost var lo, hi :| H.FreedRange(blk1, free1, p.index - 1, lo, hi)
                       && H.Coalesced(blk1, free1, heap.blk, heap.free, lo, hi);
      H.LiveAfterFree(a1, blk1, free1, heap.blk, heap.free, p.index - 1, lo, hi, heap.words[..]);
      GivenBack(a, blk, free, a1, blk1, free1, heap.words[..], heap.blk, heap.free, p, lo, hi);
    }
  }

  lemma SameAsBefore(a: seq<int>, blk: Blocks, free: seq<nat>, avail: nat)
    requires Valid(a, blk, free, avail)
    ensures SameLive(a, blk, free, a, blk, free)
  {
    forall b | H.LiveBlock(a, blk, free, b) ensures SamePayload(a, a, b, blk[b]) {
      H.BlockState(a, blk, free, avail, b);
    }
  }

  /** A block that was handed out and freed again leaves the others. */
  lemma GivenBack(a: seq<int>, blk: Blocks, free: seq<nat>, a1: seq<int>, blk1: Blocks, free1: seq<nat>,
                  a2: seq<int>, blk2: Blocks, free2: seq<nat>, p: H.Pointer, lo: nat, hi: nat)
    requires Given(a, blk, free, a1, blk1, free1, p) && p.index != 0
    requires H.Coalesced(blk1, free1, blk2, free2, lo, hi) && PayloadKept(a1, a2, blk1, free1, {p.index - 1})
    requires forall b :: H.LiveBlock(a2, blk2, free2, b) <==> b != p.index - 1 && H.LiveBlock(a1, blk1, free1, b)
    ensures SameLive(a, blk, free, a2, blk2, free2)
  {
    forall b | H.LiveBlock(a, blk, free, b)
      ensures b in blk2 && blk2[b] == blk[b] && SamePayload(a, a2, b, blk[b])
    {
      assert H.LiveBlock(a1, blk1, free1, b) && H.LiveBlock(a2, blk2, free2, b);
      assert SamePayload(a, a1, b, blk[b]) && SamePayload(a1, a2, b, blk1[b]);
    }
  }

  /** With less heap than stack no block ends above the top. And the placement that is computed looks right
      as long as the rounding in malloc does not wrap, whether the sum did or not. */
  lemma HeapBelowStack(args: seq<CString>, payload: nat, top: nat)
    requires GrantedFor(Size32(args), payload) && payload + 8 <= top < WORDS32
    ensures Size(args) < 0xFFFF_FFFD ==> Size(args) + 8 <= top
    ensures Placed(top, Size32(args)) + Size32(args) <= top <==> Size32(args) < 0xFFFF_FFFD
  {
    GrantHolds(args, payload);
    PlacedBelow(top, Size32(args));
    if 0 < Size32(args) < 0xFFFF_FFFD {
      H.RequestHonoured(Size32(args));
    }
  }

  // ---------- lists whose size wraps ----------

  lemma {:induction false} BytesOfSame(s: CString, n: nat)
    ensures Bytes(seq(n, _ => s)) == n * (|s| + 1)
  {
    if n > 0 {
      BytesOfSame(s, n - 1);
      assert seq(n, _ => s)[..n - 1] == seq(n - 1, _ => s);
    }
  }

  const LONG := 0x2_0000

  /** Where the string is in the memory below. */
  function StringStart(n: nat): nat {
    4 * n + 4
  }

  /** n pointers, a null and one string of LONG - 1 bytes; the last pointer is skip bytes into the string. */
  function SharedByte(n: nat, skip: nat, i: nat): Byte
    requires StringStart(n) + skip < WORDS32
  {
    if i + 4 < 4 * n then Encode(StringStart(n))[i % 4]
    else if i < 4 * n then Encode(StringStart(n) + skip)[i % 4]
    else if i < StringStart(n) then 0
    else if i + 1 < StringStart(n) + LONG then 1
    else 0
  }

  function SharedMemory(n: nat, skip: nat): (m: seq<Byte>)
    requires StringStart(n) + skip < WORDS32
    ensures |m| == StringStart(n) + LONG
  {
    seq(StringStart(n) + LONG, (i: nat) => SharedByte(n, skip, i))
  }

  function SharedString(skip: nat): (s: CString)
    requires skip < LONG
    ensures |s| == LONG - 1 - skip
  {
    seq(LONG - 1 - skip, _ => 1)
  }

  function SharedArgs(n: nat, skip: nat): (args: seq<CString>)
    requires n > 0 && skip < LONG
    ensures |args| == n && (n > 1 ==> |args[0]| == LONG - 1)
  {
    seq(n - 1, _ => SharedString(0)) + [SharedString(skip)]
  }

  lemma SharedStringAt(n: nat, skip: nat, from: nat)
    requires StringStart(n) + skip < WORDS32 && from < LONG
    ensures StringAt(SharedMemory(n, skip), StringStart(n) + from, SharedString(from))
  {
    var m, a, s := SharedMemory(n, skip), StringStart(n) + from, SharedString(from);
    assert m[a..a + |s|] == s;
  }

  lemma SharedPointer(n: nat, skip: nat, i: nat)
    requires StringStart(n) + skip < WORDS32 && i < n
    ensures WordAt(SharedMemory(n, skip), 4 * i) == StringStart(n) + if i == n - 1 then skip else 0
  {
    hide Encode, Word32, SharedByte;
    var w, e := SharedMemory(n, skip)[4 * i..4 * i + 4], Encode(StringStart(n) + if i == n - 1 then skip else 0);
    forall j | 0 <= j < 4 ensures w[j] == e[j] {
      assert w[j] == SharedByte(n, skip, 4 * i + j);
      PointerByte(n, skip, i, j);
    }
    assert w == e;
  }

  lemma PointerByte(n: nat, skip: nat, i: nat, j: nat)
    requires StringStart(n) + skip < WORDS32 && i < n && j < 4
    ensures SharedByte(n, skip, 4 * i + j) == Encode(StringStart(n) + if i == n - 1 then skip else 0)[j]
  {
    hide Encode;
    DivUnique(i, j, 4);
  }

  lemma SharedNull(n: nat, skip: nat)
    requires StringStart(n) + skip < WORDS32
    ensures WordAt(SharedMemory(n, skip), 4 * n) == 0
  {
    assert SharedMemory(n, skip)[4 * n..4 * n + 4] == [0, 0, 0, 0];
  }

  lemma SharedList(n: nat, skip: nat)
    requires n > 0 && skip < LONG && StringStart(n) + skip < WORDS32
    ensures ArgsAt(SharedMemory(n, skip), 0, SharedArgs(n, skip))
    ensures Size(SharedArgs(n, skip)) == 4 * (n + 1) + n * LONG - skip
  {
    hide SharedMemory, SharedString, WordAt, StringAt;
    var m, args := SharedMemory(n, skip), SharedArgs(n, skip);
    forall i | 0 <= i < n ensures ArgAt(m, 0 + 4 * i, args[i]) {
      SharedPointer(n, skip, i);
      SharedStringAt(n, skip, if i == n - 1 then skip else 0);
    }
    SharedNull(n, skip);
    BytesOfSame(SharedString(0), n - 1);
    assert args[..n - 1] == seq(n - 1, _ => SharedString(0));
  }

  /** A quarter of a megabyte of memory holds a list that needs 4 GB: the computed size is 131076, the
      block would fit below the stack, and the first string leaves whatever buffer malloc grants. */
  lemma SumWraps(payload: nat)
    requires GrantedFor(131076, payload)
    ensures ArgsAt(SharedMemory(0x8000, 0), 0, SharedArgs(0x8000, 0))
    ensures Size(SharedArgs(0x8000, 0)) == WORDS32 + 131076 && Size32(SharedArgs(0x8000, 0)) == 131076
    ensures Offset(SharedArgs(0x8000, 0), 0) + |SharedArgs(0x8000, 0)[0]| + 1 > payload
  {
    hide SharedMemory, SharedArgs, ArgsAt, Bytes;
    SharedList(0x8000, 0);
    StringsFill(SharedArgs(0x8000, 0));
  }

  /** With one pointer less and the last one three bytes into the string the sum is exact, 2^32 - 3, but
      malloc rounds it to a block of four integers: again the first string leaves the buffer. */
  lemma RoundingWraps(payload: nat)
    requires GrantedFor(0xFFFF_FFFD, payload)
    ensures ArgsAt(SharedMemory(0x7FFF, 3), 0, SharedArgs(0x7FFF, 3))
    ensures Size(SharedArgs(0x7FFF, 3)) == 0xFFFF_FFFD == Size32(SharedArgs(0x7FFF, 3))
    ensures H.Ints(0xFFFF_FFFD) == 4
    ensures Offset(SharedArgs(0x7FFF, 3), 0) + |SharedArgs(0x7FFF, 3)[0]| + 1 > payload
  {
    hide SharedMemory, SharedArgs, ArgsAt, Bytes;
    SharedList(0x7FFF, 3);
    StringsFill(SharedArgs(0x7FFF, 3));
  }
}
