/** What guest accesses leave in the boot-ROM area and read from it (src/core/autoconf.cpp), byte by byte and for
    every address, inside and outside the windows. */
module RomBytes {
  import opened BigEndian
  import opened RomArea

  function Size(e: Access): int {
    if e.WriteByte? || e.ReadByte? then 1 else if e.WriteWord? || e.ReadWord? then 2 else 4
  }

  predicate IsWrite(e: Access) { e.WriteByte? || e.WriteWord? || e.WriteLong? }

  /** The place value of byte `j` of a number, the lowest one first. */
  function Place(j: nat): (r: nat)
    ensures r > 0
  {
    if j == 0 then 1 else 0x100 * Place(j - 1)
  }

  /** Byte `k` of a number of `size` bytes, the highest one first. */
  function ByteOf(v: int, size: nat, k: nat): int
    requires k < size
  {
    v / Place(size - 1 - k) % 0x100
  }

  /** Where a write can take effect: everywhere, or in the windows alone. */
  predicate Open(c: Config, a: int) {
    || c.writeEnabled
    || 0x7FFC <= a <= 0x7FFF || 0xFFF0 <= a
    || (c.uaeboard >= 2 && (0x8000 <= a < 0xD000 || 0xF000 <= a < 0xF028 || 0xF100 <= a < 0xF128))
  }

  /** The lock words of the five trap slots. */
  predicate AtLock(c: Config, a: int) {
    !c.nodiag && c.uaeboard >= 2 && (a == 0xF002 || a == 0xF00A || a == 0xF012 || a == 0xF01A || a == 0xF022)
  }

  /** The bytes that a byte read brings up to date: the first of each trap slot and three for interrupts. */
  predicate Sensed(c: Config, a: int) {
    && !c.nodiag
    && (|| 0xFFFC <= a <= 0xFFFE
        || (c.uaeboard >= 2 && (a == 0xF000 || a == 0xF008 || a == 0xF010 || a == 0xF018 || a == 0xF020)))
  }

  /** Words and longs are accessed at even addresses, and longs do not reach past the end. */
  predicate Aligned(e: Access) {
    (Size(e) > 1 ==> e.addr % 0x1_0000 % 2 == 0) && (Size(e) == 4 ==> e.addr % 0x1_0000 < 0xFFFD)
  }

  /** The number that a write stores: at a lock word, zero. */
  function Stored(c: Config, e: Access): int
    requires IsWrite(e)
  {
    if e.WriteWord? && AtLock(c, e.addr % 0x1_0000) then 0 else e.v
  }

  /** The write takes effect. */
  predicate Stores(c: Config, e: Access) {
    IsWrite(e) && Aligned(e) && Open(c, e.addr % 0x1_0000)
  }

  /** Equal outside the `size` bytes from `a` on. */
  ghost predicate SameBut(m: seq<int>, n: seq<int>, a: int, size: int) {
    |m| == |n| && forall i :: 0 <= i < |m| && !(a <= i < a + size) ==> n[i] == m[i]
  }

  /** Every write, at any address: if it takes effect, the bytes of the number are stored in order, the highest
      first, and no other byte changes; a word at a lock is stored as zero.  Otherwise nothing changes. */
  lemma WritesAre(c: Config, m: seq<int>, e: Access)
    requires Memory(m) && IsWrite(e)
    ensures var n, a, size := Do(c, m, e).mem, e.addr % 0x1_0000, Size(e);
            if Stores(c, e) then
              && a + size <= 0x1_0000 && SameBut(m, n, a, size)
              && forall k :: 0 <= k < size ==> n[a + k] == ByteOf(Stored(c, e), size, k)
            else n == m
  {
    BytesAre(e.v);
    BytesAre(0);
    WindowIsOpen(c, e.addr % 0x1_0000);
    hide Window, TrapData, TrapStatus, TrapStatusExtra, Open, AtLock, LockWord, Place, ByteOf;
    if e.WriteWord? { LockIs(c, e.addr % 0x1_0000); }
  }

  lemma Places()
    ensures Place(0) == 1 && Place(1) == 0x100 && Place(2) == 0x1_0000 && Place(3) == 0x100_0000
  {
  }

  lemma WindowIsOpen(c: Config, a: int)
    requires 0 <= a < 0x1_0000
    ensures Writable(c, a) == Open(c, a)
  {
  }

  lemma LockIs(c: Config, a: int)
    ensures LockWord(c, a) == AtLock(c, a)
  {
  }

  /** The value of the `size` bytes from `a` on. */
  function Number(m: seq<int>, a: int, size: nat): int
    requires 0 <= a && a + size <= |m|
  {
    if size == 0 then 0 else 0x100 * Number(m, a, size - 1) + m[a + size - 1]
  }

  /** Every read, at any address: a lock word is taken if it is free, a status byte is brought up to date, and any
      other read gives the stored number and changes nothing; a read that is not aligned gives zero. */
  lemma ReadsAre(c: Config, m: seq<int>, e: Access)
    requires Memory(m) && !IsWrite(e)
    ensures var got, a, size := Do(c, m, e), e.addr % 0x1_0000, Size(e);
            if !Aligned(e) then got == Got(m, 0)
            else if e.ReadWord? && AtLock(c, a) then
              if m[a + 1] >= 0x80 then got == Got(m, m[a + 1])
              else got.value == 0 && SameBut(m, got.mem, a, 2) && got.mem[a] == 0 && got.mem[a + 1] == m[a + 1] + 0x80
            else if e.ReadByte? && Sensed(c, a) then
              got.value == got.mem[a] == (if e.flag then 1 else 0) && SameBut(m, got.mem, a, 1)
            else a + size <= 0x1_0000 && got == Got(m, Number(m, a, size))
  {
    var a := e.addr % 0x1_0000;
    LockIs(c, a);
    SensedIs(c, a);
    NumberIs(m, a);
    hide Window, TrapStatus, AtLock, LockWord, Sensed, Number;
  }

  lemma NumberIs(m: seq<int>, a: int)
    requires 0 <= a < |m|
    ensures Number(m, a, 1) == m[a]
    ensures a + 2 <= |m| ==> Number(m, a, 2) == 0x100 * m[a] + m[a + 1]
    ensures a + 4 <= |m| ==> Number(m, a, 4) == 0x100 * (0x100 * (0x100 * m[a] + m[a + 1]) + m[a + 2]) + m[a + 3]
  {
  }

  lemma SensedIs(c: Config, a: int)
    ensures Sensed(c, a) <==>
            !c.nodiag && if TrapStatus(c, a) then a % 8 == 0 else 0xFFFC <= a <= 0xFFFE
  {
  }

  /** A number that was written is read back, cut to its size. */
  lemma WriteReadsBack(c: Config, m: seq<int>, w: Access, r: Access)
    requires Memory(m) && Stores(c, w) && !IsWrite(r) && Size(r) == Size(w) && (r.addr - w.addr) % 0x1_0000 == 0
    requires !(r.ReadByte? && Sensed(c, r.addr % 0x1_0000)) && !(r.ReadWord? && AtLock(c, r.addr % 0x1_0000))
    ensures Do(c, Do(c, m, w).mem, r).value == w.v % Place(Size(w))
  {
    hide Do, Sensed, AtLock, Open, Place, ByteOf, Number;
    SameLow(r.addr, w.addr);
    WritesAre(c, m, w);
    var n := Do(c, m, w).mem;
    ReadsAre(c, n, r);
    assert Stored(c, w) == w.v;
    NumberOfBytes(n, w.addr % 0x1_0000, Size(w), w.v);
  }

  lemma NumberOfBytes(m: seq<int>, a: int, size: nat, v: int)
    requires (size == 1 || size == 2 || size == 4) && 0 <= a && a + size <= |m|
    requires forall k :: 0 <= k < size ==> m[a + k] == ByteOf(v, size, k)
    ensures Number(m, a, size) == v % Place(size)
  {
    NumberIs(m, a);
    BytesAre(v);
    BytesOf(v);
    hide Number, ByteOf;
    assert m[a + 0] == ByteOf(v, size, 0);
  }

  lemma BytesAre(v: int)
    ensures ByteOf(v, 1, 0) == v / 1 % 0x100 && Place(1) == 0x100
    ensures ByteOf(v, 2, 0) == v / 0x100 % 0x100 && ByteOf(v, 2, 1) == v / 1 % 0x100 && Place(2) == 0x1_0000
    ensures ByteOf(v, 4, 0) == v / 0x100_0000 % 0x100 && ByteOf(v, 4, 1) == v / 0x1_0000 % 0x100
    ensures ByteOf(v, 4, 2) == v / 0x100 % 0x100 && ByteOf(v, 4, 3) == v / 1 % 0x100 && Place(4) == 0x1_0000_0000
  {
    Places();
  }

  lemma SameLow(a: int, b: int)
    requires (a - b) % 0x1_0000 == 0
    ensures a % 0x1_0000 == b % 0x1_0000
  {
  }

  lemma BytesOf(v: int)
    ensures v / 1 == v
    ensures 0x100 * (v / 0x100 % 0x100) + v % 0x100 == v % 0x1_0000
    ensures 0x100 * (0x100 * (0x100 * (v / 0x100_0000 % 0x100) + v / 0x1_0000 % 0x100) + v / 0x100 % 0x100) + v % 0x100
            == v % 0x1_0000_0000
  {
    assert v / 0x1_0000 == v / 0x100 / 0x100 && v / 0x100_0000 == v / 0x1_0000 / 0x100;
  }

  /* ---------- Runs ---------- */

  /** The access can change byte `i`. */
  predicate Touches(c: Config, e: Access, i: int) {
    var a := e.addr % 0x1_0000;
    || (Stores(c, e) && a <= i < a + Size(e))
    || (e.ReadWord? && AtLock(c, a) && a <= i <= a + 1)
    || (e.ReadByte? && Sensed(c, a) && i == a)
  }

  lemma UntouchedStays(c: Config, m: seq<int>, e: Access, i: int)
    requires Memory(m) && 0 <= i < 0x1_0000 && !Touches(c, e, i)
    ensures Do(c, m, e).mem[i] == m[i]
  {
    hide Do, Sensed, AtLock, Open;
    if IsWrite(e) { WritesAre(c, m, e); } else { ReadsAre(c, m, e); }
  }

  /** Over any run: a byte is the one that the last access to touch it has left, and the first content of the area
      if none has. */
  lemma {:induction false} LastStays(c: Config, m: seq<int>, es: seq<Access>, j: nat, i: int)
    requires Memory(m) && 0 <= i < 0x1_0000 && j <= |es|
    requires forall k :: j <= k < |es| ==> !Touches(c, es[k], i)
    ensures DoAll(c, m, es)[i] == DoAll(c, m, es[..j])[i]
    decreases |es|
  {
    hide Touches, Do;
    if j == |es| {
      assert es[..j] == es;
    } else {
      var n := |es| - 1;
      LastStays(c, m, es[..n], j, i);
      assert es[..n][..j] == es[..j];
      UntouchedStays(c, DoAll(c, m, es[..n]), es[n], i);
    }
  }

  /** In particular, after a write that takes effect and any accesses that do not touch its bytes, the area holds
      the number. */
  lemma WrittenStays(c: Config, m: seq<int>, es: seq<Access>, j: nat, k: nat)
    requires Memory(m) && j < |es| && Stores(c, es[j]) && k < Size(es[j])
    requires forall n :: j < n < |es| ==> !Touches(c, es[n], es[j].addr % 0x1_0000 + k)
    ensures var w := es[j]; var a := w.addr % 0x1_0000;
            && a + k < 0x1_0000
            && DoAll(c, m, es)[a + k] == ByteOf(Stored(c, w), Size(w), k)
  {
    hide Touches, Do, AtLock, Open, Place;
    WritesAre(c, DoAll(c, m, es[..j]), es[j]);
    LastStays(c, m, es, j + 1, es[j].addr % 0x1_0000 + k);
    assert es[..j + 1][..j] == es[..j];
  }
}
