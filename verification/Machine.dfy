/** The part of an x64 thread that the hook stubs touch: the volatile registers,
    a stack of 8-byte cells, and the layout of the saved register block. */
module Machine {

  const TWO_32: int := 0x1_0000_0000

  type Dword = x: int | 0 <= x < TWO_32

  datatype Xmm = Xmm(lo: int, hi: int)

  /** The volatile registers of the Microsoft x64 calling convention, with the flags
      and the SSE control word. */
  datatype Vol = Vol(
    rax: int, rcx: int, rdx: int, r8: int, r9: int, r10: int, r11: int, rflags: int,
    xmm0: Xmm, xmm1: Xmm, xmm2: Xmm, xmm3: Xmm, xmm4: Xmm, xmm5: Xmm,
    mxcsr: int)

  /** What a thread sees besides its volatile registers and its stack. */
  datatype Rest = Rest(nonvolatile: seq<int>, heap: map<int, int>)

  /** Stack memory, one value for each 8-byte cell. */
  datatype Memory = Memory(cells: int -> int) {
    function At(a: int): int {
      cells(a)
    }

    function Put(a: int, v: int): (r: Memory)
      ensures forall x {:trigger r.At(x)} :: r.At(x) == if x == a then v else At(x)
    {
      Memory(x => if x == a then v else cells(x))
    }

    /** Everything below `limit` is overwritten. */
    function Scribble(junk: Memory, limit: int): (r: Memory)
      ensures forall x {:trigger r.At(x)} :: r.At(x) == if x < limit then junk.At(x) else At(x)
    {
      Memory(x => if x < limit then junk.cells(x) else cells(x))
    }
  }

  function Low32(w: int): Dword {
    w % TWO_32
  }

  function WithLow32(w: int, d: Dword): (r: int)
    ensures Low32(r) == d
    ensures WithLow32High(w, r)
  {
    w - w % TWO_32 + d
  }

  predicate WithLow32High(w: int, r: int) {
    w / TWO_32 == r / TWO_32
  }

  function Not32(d: Dword): Dword {
    TWO_32 - 1 - d
  }

  lemma Low32Restores(w: int, v: int, d: Dword)
    requires v == WithLow32(w, d)
    ensures WithLow32(v, Low32(w)) == w
  {
  }

  // --- Saved register block: offsets of its fields, and its size

  const O_RAX := 0
  const O_RCX := 8
  const O_RDX := 16
  const O_R8 := 24
  const O_R9 := 32
  const O_R10 := 40
  const O_R11 := 48
  const O_RFLAGS := 56
  const O_XMM0 := 64
  const O_XMM1 := 80
  const O_XMM2 := 96
  const O_XMM3 := 112
  const O_XMM4 := 128
  const O_XMM5 := 144
  const O_MXCSR := 160
  const CONTEXT_SIZE := 176

  ghost predicate XmmAt(m: Memory, a: int, x: Xmm) {
    m.At(a) == x.lo && m.At(a + 8) == x.hi
  }

  ghost predicate GeneralAt(m: Memory, c: int, v: Vol) {
    && m.At(c + O_RAX) == v.rax
    && m.At(c + O_RCX) == v.rcx
    && m.At(c + O_RDX) == v.rdx
    && m.At(c + O_R8) == v.r8
    && m.At(c + O_R9) == v.r9
    && m.At(c + O_R10) == v.r10
    && m.At(c + O_R11) == v.r11
  }

  ghost predicate XmmsAt(m: Memory, c: int, v: Vol) {
    && XmmAt(m, c + O_XMM0, v.xmm0)
    && XmmAt(m, c + O_XMM1, v.xmm1)
    && XmmAt(m, c + O_XMM2, v.xmm2)
    && XmmAt(m, c + O_XMM3, v.xmm3)
    && XmmAt(m, c + O_XMM4, v.xmm4)
    && XmmAt(m, c + O_XMM5, v.xmm5)
  }

  /** The block at `c` holds exactly `v`. */
  ghost predicate ContextAt(m: Memory, c: int, v: Vol) {
    && GeneralAt(m, c, v)
    && m.At(c + O_RFLAGS) == v.rflags
    && XmmsAt(m, c, v)
    && m.At(c + O_MXCSR) == v.mxcsr
  }

  /** `m` and `n` hold the same cells from `lo` up. */
  ghost predicate SameFrom(m: Memory, n: Memory, lo: int) {
    forall a {:trigger m.At(a)} {:trigger n.At(a)} :: lo <= a ==> m.At(a) == n.At(a)
  }

  /** `m` and `n` hold the same cells in `lo..hi`. */
  ghost predicate SameWithin(m: Memory, n: Memory, lo: int, hi: int) {
    forall a {:trigger m.At(a)} {:trigger n.At(a)} :: lo <= a < hi ==> m.At(a) == n.At(a)
  }

  /** `m` and `n` hold the same cells outside `lo..hi`. */
  ghost predicate SameOutside(m: Memory, n: Memory, lo: int, hi: int) {
    forall a {:trigger m.At(a)} {:trigger n.At(a)} :: !(lo <= a < hi) ==> m.At(a) == n.At(a)
  }

  lemma ContextMoves(m: Memory, n: Memory, c: int, v: Vol)
    requires ContextAt(m, c, v) && SameWithin(m, n, c, c + CONTEXT_SIZE)
    ensures ContextAt(n, c, v)
  {
  }

  lemma ContextUnique(m: Memory, c: int, v: Vol, w: Vol)
    requires ContextAt(m, c, v) && ContextAt(m, c, w)
    ensures v == w
  {
  }

  function Pow2(n: nat): (p: nat)
    ensures p > 0
  {
    if n == 0 then 1 else 2 * Pow2(n - 1)
  }

  /** Binary digit `k`. */
  function Digit(x: nat, k: nat): nat {
    if k == 0 then x % 2 else Digit(x / 2, k - 1)
  }

  lemma {:induction false} DigitsDiffer(x: nat, y: nat, n: nat, k: nat)
    requires x + y == Pow2(n) - 1 && k < n
    ensures Digit(x, k) + Digit(y, k) == 1
  {
    var p := Pow2(n - 1);
    assert x % 2 + y % 2 == 1 && x / 2 + y / 2 == p - 1;
    if k > 0 {
      DigitsDiffer(x / 2, y / 2, n - 1, k - 1);
    }
  }

  /** Not32 is the `not` of the machine: it changes every one of the 32 digits. */
  lemma Not32Complements(d: Dword, k: nat)
    requires k < 32
    ensures Digit(d, k) + Digit(Not32(d), k) == 1
  {
    assert Pow2(8) == 0x100;
    assert Pow2(16) == 0x1_0000;
    assert Pow2(24) == 0x100_0000;
    assert Pow2(32) == TWO_32;
    DigitsDiffer(d, Not32(d), 32, k);
  }
}
