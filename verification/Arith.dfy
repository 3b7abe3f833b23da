/** Division and wrap-around facts shared by the ring-shaped modules. */
module Arith {

  lemma MulSign(d: int, n: int)
    requires n > 0
    ensures d >= 1 ==> d * n >= n
    ensures d <= -1 ==> d * n <= -n
  {
  }

  /** Quotient and remainder are determined by their defining equation. */
  lemma ModUnique(a: int, n: int, q: int, m: int)
    requires n > 0 && a == q * n + m && 0 <= m < n
    ensures a % n == m && a / n == q
  {
    assert a == (a / n) * n + a % n;
    assert (a / n - q) * n == m - a % n;
    MulSign(a / n - q, n);
  }

  lemma ModShift(a: int, n: int, k: int)
    requires n > 0
    ensures (a + k * n) % n == a % n
  {
    assert a == (a / n) * n + a % n;
    assert (a / n + k) * n == (a / n) * n + k * n;
    ModUnique(a + k * n, n, a / n + k, a % n);
  }

  lemma DivShift(a: int, n: int)
    requires n > 0
    ensures (a - n) / n == a / n - 1
  {
    assert a == (a / n) * n + a % n;
    assert (a / n - 1) * n == (a / n) * n - n;
    ModUnique(a - n, n, a / n - 1, a % n);
  }

  /** Reducing an addend first does not change the sum's remainder. */
  lemma ModAdd(a: int, b: int, n: int)
    requires n > 0
    ensures (a % n + b) % n == (a + b) % n
  {
    assert a == (a / n) * n + a % n;
    ModShift(a % n + b, n, a / n);
  }

  /** The index distance is the distance of the counters while fewer than `n` apart. */
  lemma IndexDistance(r: int, w: int, n: int)
    requires n > 0 && r <= w < r + n
    ensures (w % n - r % n + n) % n == w - r
  {
    ModAdd(w, -(r % n), n);
    ModShift(w % n - r % n, n, 1);
    assert r == (r / n) * n + r % n;
    ModShift(w - r, n, r / n);
    assert w - r % n == w - r + (r / n) * n;
    ModUnique(w - r, n, 0, w - r);
  }

  /** Counters less than `n` apart use distinct slots. */
  lemma SlotsDiffer(i: int, w: int, n: int)
    requires n > 0 && i < w < i + n
    ensures i % n != w % n
  {
    IndexDistance(i, w, n);
    ModUnique(n, n, 1, 0);
  }
}

/** Fixed-width integers of the C code. */
module Words {
  import opened Arith

  const TWO_32 := 0x1_0000_0000
  const TWO_31 := 0x8000_0000

  /** A uae_u32. */
  function U32(x: int): (r: int)
    ensures 0 <= r < TWO_32
  {
    x % TWO_32
  }

  /** Wrapping an operand first does not change a wrapped sum. */
  lemma U32Add(x: int, y: int)
    ensures U32(U32(x) + y) == U32(x + y)
  {
    ModAdd(x, y, TWO_32);
  }

  lemma U32Small(x: int)
    requires 0 <= x < TWO_32
    ensures U32(x) == x
  {
  }

  /** An int that has wrapped at 32 bits. */
  function S32(x: int): (r: int)
    ensures -TWO_31 <= r < TWO_31
  {
    (x + TWO_31) % TWO_32 - TWO_31
  }

  lemma S32Small(x: int)
    requires -TWO_31 <= x < TWO_31
    ensures S32(x) == x
  {
  }

  /** Wrapping an operand first does not change a wrapped sum. */
  lemma S32Add(x: int, y: int)
    ensures S32(S32(x) + y) == S32(x + y)
  {
    ModAdd(x + TWO_31, y, TWO_32);
  }

  lemma S32Sub(x: int, y: int)
    ensures S32(S32(x) - S32(y)) == S32(x - y)
  {
    S32Add(x, -S32(y));
    assert y + TWO_31 == ((y + TWO_31) / TWO_32) * TWO_32 + (y + TWO_31) % TWO_32;
    ModShift(x - y + TWO_31, TWO_32, (y + TWO_31) / TWO_32);
  }
}

/** Big-endian words and longs. */
module BigEndian {

  predicate IsByte(x: int) { 0 <= x < 0x100 }

  predicate IsWord(x: int) { 0 <= x < 0x1_0000 }

  predicate IsLong(x: int) { 0 <= x < 0x1_0000_0000 }

  function Word(v: int): (r: seq<int>)
    ensures |r| == 2
  {
    [v / 0x100 % 0x100, v % 0x100]
  }

  function Long(v: int): (r: seq<int>)
    ensures |r| == 4
  {
    [v / 0x100_0000 % 0x100, v / 0x1_0000 % 0x100, v / 0x100 % 0x100, v % 0x100]
  }

  function WordAt(s: seq<int>, i: int): int
    requires 0 <= i && i + 2 <= |s|
  {
    s[i] * 0x100 + s[i + 1]
  }

  function LongAt(s: seq<int>, i: int): int
    requires 0 <= i && i + 4 <= |s|
  {
    s[i] * 0x100_0000 + s[i + 1] * 0x1_0000 + s[i + 2] * 0x100 + s[i + 3]
  }

  lemma WordRoundTrip(v: int)
    requires IsWord(v)
    ensures WordAt(Word(v), 0) == v
  {
    assert v / 0x100 < 0x100;
  }

  lemma LongRoundTrip(v: int)
    requires IsLong(v)
    ensures LongAt(Long(v), 0) == v
  {
    assert v / 0x1_0000 == v / 0x100 / 0x100 && v / 0x100_0000 == v / 0x1_0000 / 0x100;
    assert v / 0x100_0000 < 0x100;
  }

  /** Cutting to a word first does not change its bytes. */
  lemma CutWord(v: int)
    ensures v % 0x1_0000 / 0x100 == v / 0x100 % 0x100 && v % 0x1_0000 % 0x100 == v % 0x100
  {
  }
}
