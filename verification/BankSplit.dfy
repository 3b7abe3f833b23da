/** Memory accesses split at bank boundaries (include/memory.h).  An access given to one bank is right
    only while all its bytes lie in that bank of 64K, which the plain accesses here therefore demand. */
module BankSplit {
  import opened Arith
  import opened BigEndian
  import opened Words

  const BANK_SIZE := 0x1_0000

  /** The bytes of an access lie in one bank. */
  predicate InOneBank(a: int, size: int) {
    a % BANK_SIZE + size <= BANK_SIZE
  }

  predicate Space(m: seq<int>) {
    |m| == TWO_32
  }

  /** The big-endian number at `n` byte addresses, counted modulo 2^32. */
  ghost function BytesAt(m: seq<int>, a: int, n: nat): int
    requires Space(m)
  {
    if n == 0 then 0 else BytesAt(m, a, n - 1) * 0x100 + m[U32(a + n - 1)]
  }

  /** Storing bytes one address at a time. */
  ghost function WithBytes(m: seq<int>, a: int, bytes: seq<int>): (r: seq<int>)
    requires Space(m)
    ensures Space(r)
  {
    if bytes == [] then m
    else
      var n := |bytes| - 1;
      WithBytes(m, a, bytes[..n])[U32(a + n) := bytes[n]]
  }

  lemma InSpace(a: int, size: nat)
    requires IsLong(a) && 0 < size && InOneBank(a, size)
    ensures a + size <= TWO_32
  {
    assert a == a / BANK_SIZE * BANK_SIZE + a % BANK_SIZE;
  }

  /** What byte-wise storing leaves at every address. */
  lemma {:induction false} StoredAt(m: seq<int>, a: int, bytes: seq<int>, i: int)
    requires Space(m) && 0 <= i < TWO_32 && |bytes| <= TWO_32
    ensures WithBytes(m, a, bytes)[i] == if U32(i - a) < |bytes| then bytes[U32(i - a)] else m[i]
  {
    if bytes != [] {
      var n := |bytes| - 1;
      StoredAt(m, a, bytes[..n], i);
      SameOffset(a, n, i);
    }
  }

  lemma SameOffset(a: int, n: int, i: int)
    requires 0 <= n < TWO_32 && 0 <= i < TWO_32
    ensures U32(a + n) == i <==> U32(i - a) == n
  {
  }

  /** Get after put: the number comes back, and every other address keeps its byte. */
  lemma GetAfterPut(m: seq<int>, a: int, v: int)
    requires Space(m) && IsLong(v)
    ensures BytesAt(WithBytes(m, a, Long(v)), a, 4) == v
    ensures IsWord(v) ==> BytesAt(WithBytes(m, a, Word(v)), a, 2) == v
    ensures forall i :: 0 <= i < TWO_32 && U32(i - a) >= 4 ==> WithBytes(m, a, Long(v))[i] == m[i]
    ensures forall i :: 0 <= i < TWO_32 && U32(i - a) >= 2 ==> WithBytes(m, a, Word(v))[i] == m[i]
  {
    hide WithBytes, Long, Word;
    LongComesBack(WithBytes(m, a, Long(v)), a, v) by {
      forall k | 0 <= k < 4 ensures WithBytes(m, a, Long(v))[U32(a + k)] == Long(v)[k] {
        SameOffset(a, k, U32(a + k));
        StoredAt(m, a, Long(v), U32(a + k));
      }
    }
    if IsWord(v) {
      WordComesBack(WithBytes(m, a, Word(v)), a, v) by {
        forall k | 0 <= k < 2 ensures WithBytes(m, a, Word(v))[U32(a + k)] == Word(v)[k] {
          SameOffset(a, k, U32(a + k));
          StoredAt(m, a, Word(v), U32(a + k));
        }
      }
    }
    forall i | 0 <= i < TWO_32
      ensures U32(i - a) >= 4 ==> WithBytes(m, a, Long(v))[i] == m[i]
      ensures U32(i - a) >= 2 ==> WithBytes(m, a, Word(v))[i] == m[i]
    {
      StoredAt(m, a, Long(v), i);
      StoredAt(m, a, Word(v), i);
    }
  }

  lemma LongComesBack(m: seq<int>, a: int, v: int)
    requires Space(m) && IsLong(v) && forall k :: 0 <= k < 4 ==> m[U32(a + k)] == Long(v)[k]
    ensures BytesAt(m, a, 4) == v
  {
    LongRoundTrip(v);
    LongBytes(m, a);
  }

  lemma WordComesBack(m: seq<int>, a: int, v: int)
    requires Space(m) && IsWord(v) && forall k :: 0 <= k < 2 ==> m[U32(a + k)] == Word(v)[k]
    ensures BytesAt(m, a, 2) == v
  {
    WordRoundTrip(v);
    LongBytes(m, a);
  }

  lemma LongBytes(m: seq<int>, a: int)
    requires Space(m)
    ensures BytesAt(m, a, 1) == m[U32(a)]
    ensures BytesAt(m, a, 2) == m[U32(a)] * 0x100 + m[U32(a + 1)]
    ensures BytesAt(m, a, 4) ==
            m[U32(a)] * 0x100_0000 + m[U32(a + 1)] * 0x1_0000 + m[U32(a + 2)] * 0x100 + m[U32(a + 3)]
  {
    assert BytesAt(m, a, 1) == m[U32(a)];
    assert BytesAt(m, a, 3) == BytesAt(m, a, 2) * 0x100 + m[U32(a + 2)];
  }

  lemma {:induction false} PutInParts(m: seq<int>, a: int, low: seq<int>, high: seq<int>)
    requires Space(m)
    ensures WithBytes(m, a, low + high) == WithBytes(WithBytes(m, a, low), U32(a + |low|), high)
  {
    if high == [] {
      assert low + high == low;
    } else {
      var n := |high| - 1;
      PutInParts(m, a, low, high[..n]);
      assert (low + high)[..|low| + n] == low + high[..n];
      ModAdd(a + |low|, n, TWO_32);
    }
  }

  /* ---------- The instruction fetch split ---------- */

  /** The two words of get_longi_compatible, or its one long. */
  function LongiParts(a: int): (r: seq<(int, int)>) {
    if a % BANK_SIZE < 0xFFFD then [(a, 4)] else [(a, 2), (U32(a + 2), 2)]
  }

  /** The parts join to the long that byte-wise access reads. */
  lemma LongiIsWhole(m: seq<int>, a: int)
    requires Space(m) && IsLong(a)
    ensures var p := LongiParts(a);
            BytesAt(m, a, 4) ==
            if |p| == 1 then BytesAt(m, p[0].0, p[0].1)
            else BytesAt(m, p[0].0, p[0].1) * 0x1_0000 + BytesAt(m, p[1].0, p[1].1)
  {
    hide BytesAt, U32;
    LongBytes(m, a);
    LongBytes(m, U32(a + 2));
    U32Add(a + 2, 0);
    U32Add(a + 2, 1);
  }

  /** The instruction fetch always splits in words: one of them crosses a bank exactly for an odd address
      in the last three bytes of a bank. */
  lemma LongiCrossesExactlyWhen(a: int)
    requires IsLong(a)
    ensures (exists p :: p in LongiParts(a) && !InOneBank(p.0, p.1)) <==> a % 2 == 1 && a % BANK_SIZE >= 0xFFFD
  {
    hide InOneBank, U32;
    var o, parts := a % BANK_SIZE, LongiParts(a);
    Parity(a);
    WrapKeepsBankOffset(a + 2);
    BankOffsetPlusTwo(a);
    if o < 0xFFFD {
      LongiParts1(a);
    } else {
      assert parts[0] in parts && parts[1] in parts;
      InBankIs(a, 2);
      InBankIs(U32(a + 2), 2);
    }
  }

  lemma LongiParts1(a: int)
    requires a % BANK_SIZE < 0xFFFD
    ensures forall p :: p in LongiParts(a) ==> p == (a, 4) && InOneBank(p.0, p.1)
  {
  }

  lemma InBankIs(a: int, size: int)
    ensures InOneBank(a, size) <==> a % BANK_SIZE + size <= BANK_SIZE
  {
  }

  lemma Parity(a: int)
    ensures a % 2 == a % BANK_SIZE % 2
  {
    assert a == a % BANK_SIZE + (BANK_SIZE / 2 * (a / BANK_SIZE)) * 2;
    ModShift(a % BANK_SIZE, 2, BANK_SIZE / 2 * (a / BANK_SIZE));
  }

  lemma WrapKeepsBankOffset(x: int)
    ensures U32(x) % BANK_SIZE == x % BANK_SIZE
  {
    var q := x / TWO_32;
    assert x == U32(x) + (BANK_SIZE * q) * BANK_SIZE;
    ModShift(U32(x), BANK_SIZE, BANK_SIZE * q);
  }

  lemma BankOffsetPlusTwo(a: int)
    ensures (a + 2) % BANK_SIZE == if a % BANK_SIZE < 0xFFFE then a % BANK_SIZE + 2 else a % BANK_SIZE + 2 - BANK_SIZE
  {
    var q, o := a / BANK_SIZE, a % BANK_SIZE;
    assert a == q * BANK_SIZE + o;
    if o < 0xFFFE {
      ModUnique(a + 2, BANK_SIZE, q, o + 2);
    } else {
      ModUnique(a + 2, BANK_SIZE, q + 1, o + 2 - BANK_SIZE);
    }
  }

  /* ---------- The accesses in place ---------- */

  class AddressSpace {
    const bytes: array<int>

    ghost predicate Valid()
      reads this
    {
      bytes.Length == TWO_32
    }

    constructor ()
      ensures Valid() && fresh(bytes)
    {
      bytes := new int[TWO_32](_ => 0);
    }

    method MemoryGet(a: int, size: nat) returns (v: int)
      requires Valid() && IsLong(a) && (size == 1 || size == 2 || size == 4) && InOneBank(a, size)
      ensures v == BytesAt(bytes[..], a, size)
    {
      InSpace(a, size);
      LongBytes(bytes[..], a);
      v := bytes[a];
      if size >= 2 { v := v * 0x100 + bytes[a + 1]; }
      if size == 4 { v := (v * 0x100 + bytes[a + 2]) * 0x100 + bytes[a + 3]; }
    }

    method MemoryPut(a: int, data: seq<int>)
      requires Valid() && IsLong(a) && data != [] && InOneBank(a, |data|)
      modifies bytes
      ensures bytes[..] == WithBytes(old(bytes[..]), a, data)
    {
      InSpace(a, |data|);
      var i := 0;
      assert data[..0] == [];
      while i < |data|
        invariant 0 <= i <= |data|
        invariant bytes[..] == WithBytes(old(bytes[..]), a, data[..i])
      {
        assert data[..i + 1][..i] == data[..i];
        assert U32(a + i) == a + i;
        bytes[a + i] := data[i];
        i := i + 1;
      }
      assert data[..|data|] == data;
    }

    method GetWordCompatible(a: int) returns (v: int)
      requires Valid() && IsLong(a)
      ensures v == BytesAt(bytes[..], a, 2)
    {
      hide BytesAt, U32;
      LongBytes(bytes[..], a);
      PartsFit(a);
      if a % BANK_SIZE < 0xFFFF {
        v := MemoryGet(a, 2);
      } else {
        var v0 := MemoryGet(a, 1);
        var v1 := MemoryGet(U32(a + 1), 1);
        LongBytes(bytes[..], U32(a + 1));
        v := v0 * 0x100 + v1;
      }
    }

    /** get_long_compatible: no part crosses a bank and together they are the byte-wise number. */
    method GetLongCompatible(a: int) returns (v: int)
      requires Valid() && IsLong(a)
      ensures v == BytesAt(bytes[..], a, 4)
    {
      hide BytesAt, U32;
      LongBytes(bytes[..], a);
      PartsFit(a);
      if a % BANK_SIZE < 0xFFFD {
        v := MemoryGet(a, 4);
      } else if a % 2 == 1 {
        var v0 := MemoryGet(a, 1);
        var v1 := MemoryGet(U32(a + 1), 2);
        var v3 := MemoryGet(U32(a + 3), 1);
        LongBytes(bytes[..], U32(a + 1));
        LongBytes(bytes[..], U32(a + 3));
        v := v0 * 0x100_0000 + v1 * 0x100 + v3;
      } else {
        var v0 := MemoryGet(a, 2);
        var v1 := MemoryGet(U32(a + 2), 2);
        LongBytes(bytes[..], U32(a + 2));
        v := v0 * 0x1_0000 + v1;
      }
    }

    method PutWordCompatible(a: int, w: int)
      requires Valid() && IsLong(a)
      modifies bytes
      ensures bytes[..] == WithBytes(old(bytes[..]), a, Word(w))
    {
      if a % BANK_SIZE < 0xFFFF {
        MemoryPut(a, Word(w));
      } else {
        MemoryPut(a, [w / 0x100 % 0x100]);
        MemoryPut(U32(a + 1), [w % 0x100]);
        assert [w / 0x100 % 0x100] + [w % 0x100] == Word(w);
        PutInParts(old(bytes[..]), a, [w / 0x100 % 0x100], [w % 0x100]);
      }
    }

    /** put_long_compatible: the same for writing. */
    method PutLongCompatible(a: int, l: int)
      requires Valid() && IsLong(a)
      modifies bytes
      ensures bytes[..] == WithBytes(old(bytes[..]), a, Long(l))
    {
      hide WithBytes, U32;
      PartsFit(a);
      LongInParts(l);
      if a % BANK_SIZE < 0xFFFD {
        MemoryPut(a, Long(l));
      } else if a % 2 == 1 {
        var b0, b12, b3 := [l / 0x100_0000 % 0x100], Word(l / 0x100), [l % 0x100];
        MemoryPut(a, b0);
        MemoryPut(U32(a + 1), b12);
        MemoryPut(U32(a + 3), b3);
        PutInParts(old(bytes[..]), a, b0, b12);
        PutInParts(old(bytes[..]), a, b0 + b12, b3);
      } else {
        MemoryPut(a, Word(l / 0x1_0000));
        MemoryPut(U32(a + 2), Word(l));
        PutInParts(old(bytes[..]), a, Word(l / 0x1_0000), Word(l));
      }
    }
  }

  /** Where the parts of a split access start. */
  lemma PartsFit(a: int)
    requires IsLong(a)
    ensures InOneBank(a, 1) && InOneBank(U32(a + 1), 1) && InOneBank(U32(a + 3), 1)
    ensures a % 2 == 0 ==> InOneBank(a, 2) && InOneBank(U32(a + 2), 2)
    ensures a % 2 == 1 ==> InOneBank(U32(a + 1), 2)
    ensures U32(a) == a && U32(U32(a + 1)) == U32(a + 1) && U32(U32(a + 1) + 1) == U32(a + 2)
    ensures U32(U32(a + 2)) == U32(a + 2) && U32(U32(a + 2) + 1) == U32(a + 3) && U32(U32(a + 3)) == U32(a + 3)
  {
    hide InOneBank, U32;
    U32Add(a + 1, 1);
    U32Add(a + 2, 1);
    U32Small(a);
    U32Small(U32(a + 1));
    U32Small(U32(a + 2));
    U32Small(U32(a + 3));
    ByteFits(a);
    ByteFits(U32(a + 1));
    ByteFits(U32(a + 3));
    if a % 2 == 0 {
      EvenFits(a);
      EvenFits(a + 2);
    } else {
      EvenFits(a + 1);
    }
  }

  lemma ByteFits(x: int)
    ensures InOneBank(x, 1)
  {
  }

  lemma EvenFits(x: int)
    requires x % 2 == 0
    ensures InOneBank(x, 2) && InOneBank(U32(x), 2)
  {
    Parity(x);
    WrapKeepsBankOffset(x);
  }

  lemma LongInParts(l: int)
    ensures Long(l) == Word(l / 0x1_0000) + Word(l)
    ensures Long(l) == [l / 0x100_0000 % 0x100] + Word(l / 0x100) + [l % 0x100]
  {
    assert l / 0x1_0000 / 0x100 == l / 0x100_0000 && l / 0x100 / 0x100 == l / 0x1_0000;
  }
}
