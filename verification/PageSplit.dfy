/** 68040 data accesses through the MMU (include/cpummu.h, include/mmu_common.h, src/core/cpummu.cpp):
    the page-crossing test, the fast page cache, and accesses split where they cross a page.  The
    translation tables are any function from pages to aligned frames or faults. */
module PageSplit {
  import opened Arith
  import opened BigEndian
  import opened Words

  /* ---------- The crossing test ---------- */

  /** is_unaligned_page: the page-size bit of the first and the last address differ. */
  predicate IsUnalignedPage(pageSize: int, a: int, size: int)
    requires pageSize > 0 && size > 0
  {
    a % size != 0 && a / pageSize % 2 != U32(a + size - 1) / pageSize % 2
  }

  predicate GoodSizes(pageSize: int, size: int) {
    0 < size <= pageSize && pageSize % size == 0 && TWO_32 % (2 * pageSize) == 0
  }

  /** For every 32-bit address the one-bit test says exactly whether the access leaves its page, also
      where it wraps to address 0. */
  lemma CrossingTestIsExact(pageSize: int, a: int, size: int)
    requires GoodSizes(pageSize, size) && IsLong(a)
    ensures IsUnalignedPage(pageSize, a, size) <==> a / pageSize != U32(a + size - 1) / pageSize
    ensures IsUnalignedPage(pageSize, a, size) <==> a % pageSize + size > pageSize
  {
    hide U32;
    LastAddress(pageSize, a, size);
    AlignedFits(pageSize, a, size);
  }

  /** The last address is in the same page or, if not, in one whose number has the other parity. */
  lemma LastAddress(pageSize: int, a: int, size: int)
    requires GoodSizes(pageSize, size) && IsLong(a)
    ensures a % pageSize + size <= pageSize ==> U32(a + size - 1) / pageSize == a / pageSize
    ensures a % pageSize + size > pageSize ==> U32(a + size - 1) / pageSize % 2 != a / pageSize % 2
  {
    var q, o := a / pageSize, a % pageSize;
    assert a == q * pageSize + o;
    if o + size <= pageSize {
      EndOfPage(pageSize, q);
      assert (q + 1) * pageSize == q * pageSize + pageSize;
      ModUnique(a + size - 1, pageSize, q, o + size - 1);
      ModUnique(a + size - 1, TWO_32, 0, a + size - 1);
    } else if a + size - 1 < TWO_32 {
      assert (q + 1) * pageSize == q * pageSize + pageSize;
      ModUnique(a + size - 1, pageSize, q + 1, o + size - 1 - pageSize);
      ModUnique(a + size - 1, TWO_32, 0, a + size - 1);
      OtherParity(q);
    } else {
      WrapPage(pageSize, a, size);
    }
  }

  lemma OtherParity(q: int)
    ensures (q + 1) % 2 != q % 2
  {
  }

  /** Page numbers go up to an odd one, whose page ends where addresses do. */
  lemma EndOfPage(pageSize: int, q: int)
    requires pageSize > 0 && TWO_32 % (2 * pageSize) == 0 && q * pageSize < TWO_32
    ensures (q + 1) * pageSize <= TWO_32
  {
    var n := TWO_32 / (2 * pageSize) * 2;
    assert n * pageSize == TWO_32 / (2 * pageSize) * (2 * pageSize) == TWO_32;
    MulSign(q - n, pageSize);
    assert (q - n) * pageSize == q * pageSize - n * pageSize;
    MulSign(q + 1 - n, pageSize);
    assert (q + 1 - n) * pageSize == (q + 1) * pageSize - n * pageSize;
  }

  lemma AlignedFits(pageSize: int, a: int, size: int)
    requires 0 < size <= pageSize && pageSize % size == 0
    ensures a % size == 0 ==> a % pageSize + size <= pageSize
  {
    var k, j, q, o := pageSize / size, a / size, a / pageSize, a % pageSize;
    assert pageSize == k * size && a == j * size + a % size && a == q * pageSize + o;
    if a % size == 0 {
      Regroup(k, j, q, size);
      MulSign(k - j + q * k, size);
    }
  }

  lemma Regroup(k: int, j: int, q: int, size: int)
    ensures (k - j + q * k) * size == k * size - j * size + q * (k * size)
  {
    assert (q * k) * size == q * (k * size);
  }

  lemma WrapPage(pageSize: int, a: int, size: int)
    requires GoodSizes(pageSize, size) && IsLong(a) && a + size - 1 >= TWO_32
    ensures U32(a + size - 1) / pageSize == 0 && a / pageSize % 2 == 1
  {
    var half := TWO_32 / (2 * pageSize);
    assert half * 2 * pageSize == half * (2 * pageSize) == TWO_32;
    ModUnique(a + size - 1, TWO_32, 1, a + size - 1 - TWO_32);
    ModUnique(a + size - 1 - TWO_32, pageSize, 0, a + size - 1 - TWO_32);
    ModUnique(a, pageSize, 2 * half - 1, a - TWO_32 + pageSize);
    ModUnique(2 * half - 1, 2, half - 1, 1);
  }

  /* ---------- Translation ---------- */

  datatype Frame = Fault | At(phys: int)

  /** The translation of a page number, for a supervisor or user access, to read or to write. */
  datatype Tables = Tables(pageSize: int, frames: (int, bool, bool) -> Frame)

  predicate IsPage(t: Tables, page: int)
    requires t.pageSize > 0
  {
    0 <= page < TWO_32 / t.pageSize
  }

  predicate Aligned(pageSize: int, f: Frame)
    requires pageSize > 0
  {
    f.At? ==> f.phys % pageSize == 0 && 0 <= f.phys <= TWO_32 - pageSize
  }

  ghost predicate TablesOk(t: Tables) {
    && (t.pageSize == 4096 || t.pageSize == 8192)
    && AllAligned(t)
  }

  ghost predicate AllAligned(t: Tables)
    requires t.pageSize > 0
  {
    forall page, s, w :: Aligned(t.pageSize, t.frames(page, s, w))
  }

  /** Where one byte address goes. */
  function Translation(t: Tables, a: int, s: bool, w: bool): Frame
    requires t.pageSize > 0
  {
    var f := t.frames(a / t.pageSize, s, w);
    if f.At? then At(f.phys + a % t.pageSize) else Fault
  }

  /* ---------- Byte-wise access ---------- */

  datatype Option<T> = None | Some(value: T)

  /** The bytes at `n` consecutive addresses, each translated on its own. */
  ghost function GetBytes(t: Tables, m: seq<int>, a: int, n: nat, s: bool): (r: Option<seq<int>>)
    requires TablesOk(t) && |m| == TWO_32
    ensures r.Some? ==> |r.value| == n
  {
    if n == 0 then Some([])
    else
      var r := GetBytes(t, m, a, n - 1, s);
      var f := Translation(t, U32(a + n - 1), s, false);
      if r.Some? && f.At? then Some(r.value + [m[f.phys]]) else None
  }

  datatype Stored = Stored(mem: seq<int>, done: bool)

  /** The same for writing: the bytes before a fault have been written. */
  ghost function PutBytes(t: Tables, m: seq<int>, a: int, bytes: seq<int>, s: bool): (r: Stored)
    requires TablesOk(t) && |m| == TWO_32
    ensures |r.mem| == TWO_32
  {
    if bytes == [] then Stored(m, true)
    else
      var n := |bytes| - 1;
      var r := PutBytes(t, m, a, bytes[..n], s);
      var f := Translation(t, U32(a + n), s, true);
      if !r.done then r else if f.Fault? then Stored(r.mem, false) else Stored(r.mem[f.phys := bytes[n]], true)
  }

  /** Consecutive addresses of one page go to consecutive physical addresses. */
  lemma NextInPage(t: Tables, a: int, k: nat, s: bool, w: bool)
    requires TablesOk(t) && IsLong(a) && a % t.pageSize + k < t.pageSize
    ensures Translation(t, U32(a + k), s, w) ==
            match Translation(t, a, s, w) case Fault => Fault case At(p) => At(p + k)
    ensures Translation(t, a, s, w).At? ==> Translation(t, a, s, w).phys + k < TWO_32
  {
    var p := t.pageSize;
    assert a == a / p * p + a % p;
    ModUnique(a + k, p, a / p, a % p + k);
    assert a + k < TWO_32;
    assert Aligned(p, t.frames(a / p, s, w));
  }

  lemma InRange(t: Tables, a: int, s: bool, w: bool)
    requires TablesOk(t)
    ensures t.pageSize > 0 && (Translation(t, a, s, w).At? ==> 0 <= Translation(t, a, s, w).phys < TWO_32)
  {
    assert Aligned(t.pageSize, t.frames(a / t.pageSize, s, w));
  }

  lemma GetNothing(t: Tables, m: seq<int>, a: int, s: bool)
    requires TablesOk(t) && |m| == TWO_32
    ensures GetBytes(t, m, a, 0, s) == Some([])
  {
  }

  lemma GetOneMore(t: Tables, m: seq<int>, a: int, n: nat, s: bool)
    requires TablesOk(t) && |m| == TWO_32
    ensures var r, f := GetBytes(t, m, a, n, s), Translation(t, U32(a + n), s, false);
            && (f.At? ==> 0 <= f.phys < TWO_32)
            && GetBytes(t, m, a, n + 1, s) == if r.Some? && f.At? then Some(r.value + [m[f.phys]]) else None
  {
    InRange(t, U32(a + n), s, false);
  }

  /** One translation reads what byte-wise access reads. */
  lemma {:induction false} OnePageGet(t: Tables, m: seq<int>, a: int, n: nat, s: bool)
    requires TablesOk(t) && |m| == TWO_32 && IsLong(a) && n > 0 && a % t.pageSize + n <= t.pageSize
    ensures var f := Translation(t, a, s, false);
            && (f.At? ==> 0 <= f.phys && f.phys + n <= TWO_32)
            && GetBytes(t, m, a, n, s) == if f.At? then Some(m[f.phys..f.phys + n]) else None
  {
    hide Translation, AllAligned;
    NextInPage(t, a, n - 1, s, false);
    NextInPage(t, a, 0, s, false);
    InRange(t, a, s, false);
    if n > 1 {
      OnePageGet(t, m, a, n - 1, s);
      var f := Translation(t, a, s, false);
      if f.At? { assert m[f.phys..f.phys + n] == m[f.phys..f.phys + n - 1] + [m[f.phys + n - 1]]; }
    } else {
      GetOneMore(t, m, a, 0, s);
      var f, none: seq<int> := Translation(t, a, s, false), [];
      if f.At? { assert none + [m[f.phys]] == m[f.phys..f.phys + 1]; }
    }
  }

  /** One translation writes what byte-wise access writes. */
  lemma {:induction false} OnePagePut(t: Tables, m: seq<int>, a: int, bytes: seq<int>, s: bool)
    requires TablesOk(t) && |m| == TWO_32 && IsLong(a) && bytes != [] && a % t.pageSize + |bytes| <= t.pageSize
    ensures var f := Translation(t, a, s, true);
            && (f.At? ==> 0 <= f.phys && f.phys + |bytes| <= TWO_32)
            && PutBytes(t, m, a, bytes, s) ==
               if f.At? then Stored(m[..f.phys] + bytes + m[f.phys + |bytes|..], true) else Stored(m, false)
  {
    hide Translation, AllAligned;
    var n := |bytes| - 1;
    NextInPage(t, a, n, s, true);
    NextInPage(t, a, 0, s, true);
    InRange(t, a, s, true);
    if n > 0 {
      OnePagePut(t, m, a, bytes[..n], s);
    } else {
      assert PutBytes(t, m, a, bytes[..0], s) == Stored(m, true);
    }
  }

  /** Reading in two parts. */
  lemma {:induction false} GetInParts(t: Tables, m: seq<int>, a: int, k: nat, n: nat, s: bool)
    requires TablesOk(t) && |m| == TWO_32
    ensures var l, h := GetBytes(t, m, a, k, s), GetBytes(t, m, U32(a + k), n, s);
            GetBytes(t, m, a, k + n, s) == if l.Some? && h.Some? then Some(l.value + h.value) else None
  {
    hide Translation, AllAligned, GetBytes, U32;
    GetNothing(t, m, U32(a + k), s);
    if n == 0 {
      var l, h := GetBytes(t, m, a, k, s), GetBytes(t, m, U32(a + k), 0, s);
      if l.Some? { assert l.value + h.value == l.value; }
    } else {
      GetInParts(t, m, a, k, n - 1, s);
      GetOneMore(t, m, a, k + n - 1, s);
      GetOneMore(t, m, U32(a + k), n - 1, s);
      U32Add(a + k, n - 1);
      var l, h := GetBytes(t, m, a, k, s), GetBytes(t, m, U32(a + k), n - 1, s);
      var f := Translation(t, U32(a + k + n - 1), s, false);
      if l.Some? && h.Some? && f.At? {
        assert l.value + h.value + [m[f.phys]] == l.value + (h.value + [m[f.phys]]);
      }
    }
  }

  /** Writing in two parts. */
  lemma {:induction false} PutInParts(t: Tables, m: seq<int>, a: int, low: seq<int>, high: seq<int>, s: bool)
    requires TablesOk(t) && |m| == TWO_32
    ensures var l := PutBytes(t, m, a, low, s);
            PutBytes(t, m, a, low + high, s) == if l.done then PutBytes(t, l.mem, U32(a + |low|), high, s) else l
  {
    hide Translation, AllAligned;
    if high == [] {
      assert low + high == low;
    } else {
      var n := |high| - 1;
      PutInParts(t, m, a, low, high[..n], s);
      assert (low + high)[..|low| + n] == low + high[..n];
      ModAdd(a + |low|, n, TWO_32);
    }
  }

  /* ---------- The page cache ---------- */

  const MMUFASTCACHE_ENTRIES := 256
  const NO_TAG := 0xFFFF_FFFF
  const EVERY_PAGE := 0xFFFF_FFFF

  datatype Entry = Entry(log: int, phys: int)

  /** The tag as computed: the page bits shifted one less than the page shift, with the mode as bit 0. */
  function Tag(pageSize: int, a: int, s: bool): int
    requires pageSize > 1
  {
    (a - a % pageSize) / (pageSize / 2) + if s then 1 else 0
  }

  function TagOf(page: int, s: bool): int { 2 * page + if s then 1 else 0 }

  /** Two accesses have the same tag exactly when page and mode agree, and no tag is the empty mark. */
  lemma TagsAreExact(t: Tables, a: int, s: bool, b: int, r: bool)
    requires TablesOk(t) && IsLong(a) && IsLong(b)
    ensures Tag(t.pageSize, a, s) == Tag(t.pageSize, b, r) <==> a / t.pageSize == b / t.pageSize && s == r
    ensures Tag(t.pageSize, a, s) == TagOf(a / t.pageSize, s) != NO_TAG
  {
    TagIs(t, a, s);
    TagIs(t, b, r);
  }

  lemma TagIs(t: Tables, a: int, s: bool)
    requires TablesOk(t) && IsLong(a)
    ensures Tag(t.pageSize, a, s) == TagOf(a / t.pageSize, s) && IsPage(t, a / t.pageSize)
  {
    var h := t.pageSize / 2;
    assert a == a / t.pageSize * t.pageSize + a % t.pageSize;
    ModUnique(a - a % t.pageSize, h, 2 * (a / t.pageSize), 0);
  }

  /** Every entry that carries the tag of a page holds its frame. */
  ghost predicate Agrees(t: Tables, cache: seq<Entry>, w: bool)
    requires t.pageSize > 0
  {
    forall i, page, s :: 0 <= i < |cache| && IsPage(t, page) && cache[i].log == TagOf(page, s) ==>
      t.frames(page, s, w) == At(cache[i].phys)
  }

  /** The tables agree on everything but one page in one mode. */
  ghost predicate ChangedOnly(t: Tables, u: Tables, page: int, s: bool) {
    && t.pageSize == u.pageSize
    && forall q, r, w :: q != page || r != s ==> u.frames(q, r, w) == t.frames(q, r, w)
  }

  /** A cache without the tag of the page that changed agrees with the new tables. */
  lemma FlushedAgrees(t: Tables, u: Tables, cache: seq<Entry>, w: bool, page: int, s: bool)
    requires t.pageSize > 0 && Agrees(t, cache, w) && ChangedOnly(t, u, page, s)
    requires forall i :: 0 <= i < |cache| ==> cache[i].log != TagOf(page, s)
    ensures Agrees(u, cache, w)
  {
    forall i, q, r | 0 <= i < |cache| && IsPage(u, q) && cache[i].log == TagOf(q, r)
      ensures u.frames(q, r, w) == At(cache[i].phys)
    {
      assert IsPage(t, q);
    }
  }

  /** What a flush leaves of an entry: the address of all ones means every page. */
  function Flushed(e: Entry, a: int, tag: int): Entry {
    if a == EVERY_PAGE then Entry(NO_TAG, NO_TAG) else if e.log == tag then Entry(NO_TAG, e.phys) else e
  }

  /** An entry after a flush: gone for the address of all ones, or if it is tagged with the page and mode. */
  lemma FlushedIs(e: Entry, a: int, page: int, s: bool)
    ensures var f := Flushed(e, a, TagOf(page, s));
            if a == 0xFFFF_FFFF || e.log == 2 * page + (if s then 1 else 0) then f.log == 0xFFFF_FFFF else f == e
  {
  }

  /** The cache after a translation that has found a frame: the entry of the page, chosen by the low eight bits of
      its tag, holds page, mode and frame; the last entry is never filled. */
  ghost predicate Filled(t: Tables, cache: seq<Entry>, a: int, s: bool, frame: int)
    requires t.pageSize > 0 && |cache| == 256
  {
    var tag := a / t.pageSize * 2 + if s then 1 else 0;
    tag % 256 != 255 ==> cache[tag % 256] == Entry(tag, frame)
  }

  /* ---------- The accesses in place ---------- */

  class Mmu {
    var tables: Tables
    const phys: array<int>
    const readCache: array<Entry>
    const writeCache: array<Entry>

    ghost predicate Shape()
      reads this
    {
      && TablesOk(tables) && phys.Length == TWO_32
      && readCache != writeCache && readCache.Length == writeCache.Length == MMUFASTCACHE_ENTRIES
    }

    ghost predicate Valid()
      reads this, readCache, writeCache
    {
      Shape() && Agrees(tables, readCache[..], false) && Agrees(tables, writeCache[..], true)
    }

    constructor (tables: Tables)
      requires TablesOk(tables)
      ensures Valid() && this.tables == tables && fresh(phys) && fresh(readCache) && fresh(writeCache)
    {
      this.tables := tables;
      phys := new int[TWO_32](_ => 0);
      readCache := new Entry[MMUFASTCACHE_ENTRIES](_ => Entry(NO_TAG, NO_TAG));
      writeCache := new Entry[MMUFASTCACHE_ENTRIES](_ => Entry(NO_TAG, NO_TAG));
    }

    /** flush_shortcut_cache on one of the two caches: everything, or the loop over the entries. */
    method FlushCache(cache: array<Entry>, a: int, tag: int)
      modifies cache
      ensures forall i :: 0 <= i < cache.Length ==> cache[i] == Flushed(old(cache[i]), a, tag)
    {
      var i := 0;
      while i < cache.Length
        invariant 0 <= i <= cache.Length
        invariant forall j :: 0 <= j < i ==> cache[j] == Flushed(old(cache[j]), a, tag)
        invariant forall j :: i <= j < cache.Length ==> cache[j] == old(cache[j])
      {
        if a == EVERY_PAGE {
          cache[i] := Entry(NO_TAG, NO_TAG);
        } else if cache[i].log == tag {
          cache[i] := Entry(NO_TAG, cache[i].phys);
        }
        i := i + 1;
      }
    }

    /** flush_shortcut_cache: for the address of all ones both caches are emptied, for any other exactly the
        entries of its page and mode. */
    method FlushShortcutCache(a: int, s: bool)
      requires Shape() && IsLong(a)
      modifies readCache, writeCache
      ensures forall i :: 0 <= i < 256 ==>
        readCache[i] == Flushed(old(readCache[i]), a, TagOf(a / tables.pageSize, s))
      ensures forall i :: 0 <= i < 256 ==>
        writeCache[i] == Flushed(old(writeCache[i]), a, TagOf(a / tables.pageSize, s))
    {
      TagIs(tables, a, s);
      FlushCache(readCache, a, Tag(tables.pageSize, a, s));
      FlushCache(writeCache, a, Tag(tables.pageSize, a, s));
    }

    /** Changing the translation of a page and flushing it keeps both caches right. */
    method ChangePage(changed: Tables, a: int, s: bool)
      requires Valid() && IsLong(a) && TablesOk(changed) && ChangedOnly(tables, changed, a / tables.pageSize, s)
      modifies this`tables, readCache, writeCache
      ensures Valid() && tables == changed
    {
      hide AllAligned;
      ghost var before := tables;
      TagIs(before, a, s);
      FlushShortcutCache(a, s);
      FlushKeepsAgreement(before, old(readCache[..]), readCache[..], false, a, s);
      FlushKeepsAgreement(before, old(writeCache[..]), writeCache[..], true, a, s);
      FlushedAgrees(before, changed, readCache[..], false, a / before.pageSize, s);
      FlushedAgrees(before, changed, writeCache[..], true, a / before.pageSize, s);
      tables := changed;
    }

    /** mmu_add_cache: the last entry is never filled. */
    method AddCache(a: int, frame: int, s: bool, w: bool)
      requires Valid() && IsLong(a) && tables.frames(a / tables.pageSize, s, w) == At(frame)
      modifies readCache, writeCache
      ensures Valid() && Filled(tables, if w then writeCache[..] else readCache[..], a, s, frame)
      ensures forall i :: 0 <= i < 256 && (!w || i != TagOf(a / tables.pageSize, s) % 256 || i == 255) ==>
                writeCache[i] == old(writeCache[i])
      ensures forall i :: 0 <= i < 256 && (w || i != TagOf(a / tables.pageSize, s) % 256 || i == 255) ==>
                readCache[i] == old(readCache[i])
    {
      hide AllAligned;
      TagIs(tables, a, s);
      var idx1 := Tag(tables.pageSize, a, s);
      var idx2 := idx1 % MMUFASTCACHE_ENTRIES;
      if idx2 < MMUFASTCACHE_ENTRIES - 1 {
        if w { writeCache[idx2] := Entry(idx1, frame); } else { readCache[idx2] := Entry(idx1, frame); }
      }
    }

    /** mmu_translate: a table search that has to fill its own cache first flushes the page here. */
    method MmuTranslate(a: int, s: bool, w: bool) returns (f: Frame)
      requires Valid() && IsLong(a)
      modifies readCache, writeCache
      ensures Valid() && f == Translation(tables, a, s, w)
      ensures f.At? ==> Filled(tables, if w then writeCache[..] else readCache[..], a, s,
                               f.phys - a % tables.pageSize)
    {
      hide AllAligned;
      TagIs(tables, a, s);
      if * {
        FlushShortcutCache(a, s);
        FlushKeepsAgreement(tables, old(readCache[..]), readCache[..], false, a, s);
        FlushKeepsAgreement(tables, old(writeCache[..]), writeCache[..], true, a, s);
      }
      var frame := tables.frames(a / tables.pageSize, s, w);
      if frame.Fault? { return Fault; }
      AddCache(a, frame.phys, s, w);
      f := At(frame.phys + a % tables.pageSize);
    }

    /** The lookup at the head of every mmu_get_* and mmu_put_*: a page that is found in its entry is translated from
        there, any other one by a table search that fills the entry. */
    method Lookup(a: int, s: bool, w: bool) returns (f: Frame)
      requires Valid() && IsLong(a)
      modifies readCache, writeCache
      ensures Valid() && f == Translation(tables, a, s, w)
      ensures f.At? ==> Filled(tables, if w then writeCache[..] else readCache[..], a, s,
                               f.phys - a % tables.pageSize)
      ensures var tag := TagOf(a / tables.pageSize, s);
              old((if w then writeCache else readCache)[tag % 256].log == tag) ==>
                readCache[..] == old(readCache[..]) && writeCache[..] == old(writeCache[..])
    {
      hide AllAligned;
      TagIs(tables, a, s);
      var idx1 := Tag(tables.pageSize, a, s);
      var idx2 := idx1 % MMUFASTCACHE_ENTRIES;
      var e := if w then writeCache[idx2] else readCache[idx2];
      if e.log == idx1 {
        f := At(e.phys + a % tables.pageSize);
      } else {
        f := MmuTranslate(a, s, w);
      }
    }

    /** mmu_get_byte */
    method GetByte(a: int, s: bool) returns (r: Option<int>)
      requires Valid() && IsLong(a)
      modifies readCache, writeCache
      ensures Valid() && r == Value(GetBytes(tables, phys[..], a, 1, s))
    {
      hide AllAligned, GetBytes, Agrees;
      GetOnePage(tables, phys[..], a, 1, s);
      var f := Lookup(a, s, false);
      r := if f.At? then Some(phys[f.phys]) else None;
    }

    /** mmu_get_word: one translation for both bytes. */
    method GetWord(a: int, s: bool) returns (r: Option<int>)
      requires Valid() && IsLong(a) && a % tables.pageSize + 2 <= tables.pageSize
      modifies readCache, writeCache
      ensures Valid() && r == Value(GetBytes(tables, phys[..], a, 2, s))
    {
      hide AllAligned, GetBytes, Agrees;
      GetOnePage(tables, phys[..], a, 2, s);
      var f := Lookup(a, s, false);
      r := if f.At? then Some(WordAt(phys[..], f.phys)) else None;
    }

    /** mmu_get_long: one translation for all four bytes. */
    method GetLong(a: int, s: bool) returns (r: Option<int>)
      requires Valid() && IsLong(a) && a % tables.pageSize + 4 <= tables.pageSize
      modifies readCache, writeCache
      ensures Valid() && r == Value(GetBytes(tables, phys[..], a, 4, s))
    {
      hide AllAligned, GetBytes, Agrees;
      GetOnePage(tables, phys[..], a, 4, s);
      var f := Lookup(a, s, false);
      r := if f.At? then Some(LongAt(phys[..], f.phys)) else None;
    }

    /** mmu_get_word_unaligned */
    method GetWordUnaligned(a: int, s: bool) returns (r: Option<int>)
      requires Valid() && IsLong(a)
      modifies readCache, writeCache
      ensures Valid() && r == Value(GetBytes(tables, phys[..], a, 2, s))
    {
      hide AllAligned, GetBytes, Agrees, U32;
      GetInParts(tables, phys[..], a, 1, 1, s);
      var high := GetByte(a, s);
      if high.None? { return None; }
      var low := GetByte(U32(a + 1), s);
      if low.None? { return None; }
      r := Some(high.value * 0x100 + low.value);
    }

    /** mmu_get_long_unaligned: two words at an even address, four bytes at an odd one. */
    method GetLongUnaligned(a: int, s: bool) returns (r: Option<int>)
      requires Valid() && IsLong(a)
      modifies readCache, writeCache
      ensures Valid() && r == Value(GetBytes(tables, phys[..], a, 4, s))
    {
      hide AllAligned, GetBytes, Agrees, U32;
      GetInParts(tables, phys[..], a, 2, 2, s);
      if a % 2 == 0 {
        EvenWordFits(tables, a);
        var high := GetWord(a, s);
        if high.None? { return None; }
        var low := GetWord(U32(a + 2), s);
        if low.None? { return None; }
        r := Some(high.value * 0x1_0000 + low.value);
      } else {
        GetInParts(tables, phys[..], a, 1, 1, s);
        GetInParts(tables, phys[..], U32(a + 2), 1, 1, s);
        U32Add(a + 2, 1);
        var b0 := GetByte(a, s);
        if b0.None? { return None; }
        var b1 := GetByte(U32(a + 1), s);
        if b1.None? { return None; }
        var b2 := GetByte(U32(a + 2), s);
        if b2.None? { return None; }
        var b3 := GetByte(U32(a + 3), s);
        if b3.None? { return None; }
        r := Some(((b0.value * 0x100 + b1.value) * 0x100 + b2.value) * 0x100 + b3.value);
      }
    }

    /** uae_mmu040_get_word: byte-wise access, whatever page the word starts and ends in. */
    method UaeMmu040GetWord(a: int, s: bool) returns (r: Option<int>)
      requires Valid() && IsLong(a)
      modifies readCache, writeCache
      ensures Valid() && r == Value(GetBytes(tables, phys[..], a, 2, s))
    {
      CrossingTestIsExact(tables.pageSize, a, 2);
      if IsUnalignedPage(tables.pageSize, a, 2) {
        r := GetWordUnaligned(a, s);
      } else {
        r := GetWord(a, s);
      }
    }

    /** uae_mmu040_get_long */
    method UaeMmu040GetLong(a: int, s: bool) returns (r: Option<int>)
      requires Valid() && IsLong(a)
      modifies readCache, writeCache
      ensures Valid() && r == Value(GetBytes(tables, phys[..], a, 4, s))
    {
      CrossingTestIsExact(tables.pageSize, a, 4);
      if IsUnalignedPage(tables.pageSize, a, 4) {
        r := GetLongUnaligned(a, s);
      } else {
        r := GetLong(a, s);
      }
    }

    /** x_phys_put_*: the bytes of a value at consecutive physical addresses. */
    method PhysPut(p: int, bytes: seq<int>)
      requires phys.Length == TWO_32 && 0 <= p && p + |bytes| <= TWO_32
      modifies phys
      ensures phys[..] == old(phys[..p]) + bytes + old(phys[p + |bytes|..])
    {
      var i := 0;
      while i < |bytes|
        invariant 0 <= i <= |bytes|
        invariant phys[..p] == old(phys[..p]) && phys[p..p + i] == bytes[..i]
        invariant forall j :: p + i <= j < phys.Length ==> phys[j] == old(phys[j])
      {
        phys[p + i] := bytes[i];
        i := i + 1;
      }
    }

    /** mmu_put_byte, mmu_put_word, mmu_put_long: one translation for all bytes of the value. */
    method PutInPage(a: int, bytes: seq<int>, s: bool) returns (done: bool)
      requires Valid() && IsLong(a) && bytes != [] && a % tables.pageSize + |bytes| <= tables.pageSize
      modifies readCache, writeCache, phys
      ensures Valid() && Stored(phys[..], done) == PutBytes(tables, old(phys[..]), a, bytes, s)
    {
      hide AllAligned, PutBytes, Agrees;
      OnePagePut(tables, phys[..], a, bytes, s);
      var f := Lookup(a, s, true);
      if f.Fault? { return false; }
      PhysPut(f.phys, bytes);
      done := true;
    }

    /** mmu_put_word_unaligned */
    method PutWordUnaligned(a: int, v: int, s: bool) returns (done: bool)
      requires Valid() && IsLong(a)
      modifies readCache, writeCache, phys
      ensures Valid() && Stored(phys[..], done) == PutBytes(tables, old(phys[..]), a, Word(v), s)
    {
      hide AllAligned, PutBytes, Agrees, U32;
      assert [v / 0x100 % 0x100] + [v % 0x100] == Word(v);
      PutInParts(tables, phys[..], a, [v / 0x100 % 0x100], [v % 0x100], s);
      done := PutInPage(a, [v / 0x100 % 0x100], s);
      if done { done := PutInPage(U32(a + 1), [v % 0x100], s); }
    }

    /** mmu_put_long_unaligned: two words at an even address, four single bytes at an odd one. */
    method PutLongUnaligned(a: int, v: int, s: bool) returns (done: bool)
      requires Valid() && IsLong(a)
      modifies readCache, writeCache, phys
      ensures Valid() && Stored(phys[..], done) == PutBytes(tables, old(phys[..]), a, Long(v), s)
    {
      hide AllAligned, PutBytes, Agrees, U32;
      LongInWords(v);
      PutInParts(tables, phys[..], a, Word(v / 0x1_0000), Word(v), s);
      if a % 2 == 0 {
        EvenWordFits(tables, a);
        done := PutInPage(a, Word(v / 0x1_0000), s);
        if done { done := PutInPage(U32(a + 2), Word(v), s); }
      } else {
        done := PutWordUnaligned(a, v / 0x1_0000, s);
        if done { done := PutWordUnaligned(U32(a + 2), v, s); }
      }
    }

    /** uae_mmu040_put_word: byte-wise access, up to the first byte that faults. */
    method UaeMmu040PutWord(a: int, v: int, s: bool) returns (done: bool)
      requires Valid() && IsLong(a)
      modifies readCache, writeCache, phys
      ensures Valid() && Stored(phys[..], done) == PutBytes(tables, old(phys[..]), a, Word(v), s)
    {
      CrossingTestIsExact(tables.pageSize, a, 2);
      if IsUnalignedPage(tables.pageSize, a, 2) {
        done := PutWordUnaligned(a, v, s);
      } else {
        done := PutInPage(a, Word(v), s);
      }
    }

    /** uae_mmu040_put_long */
    method UaeMmu040PutLong(a: int, v: int, s: bool) returns (done: bool)
      requires Valid() && IsLong(a)
      modifies readCache, writeCache, phys
      ensures Valid() && Stored(phys[..], done) == PutBytes(tables, old(phys[..]), a, Long(v), s)
    {
      CrossingTestIsExact(tables.pageSize, a, 4);
      if IsUnalignedPage(tables.pageSize, a, 4) {
        done := PutLongUnaligned(a, v, s);
      } else {
        done := PutInPage(a, Long(v), s);
      }
    }
  }

  /** The number that one, two or four bytes stand for. */
  ghost function Value(r: Option<seq<int>>): Option<int>
    requires r.Some? ==> |r.value| == 1 || |r.value| == 2 || |r.value| == 4
  {
    match r
    case None => None
    case Some(b) => Some(if |b| == 1 then b[0] else if |b| == 2 then WordAt(b, 0) else LongAt(b, 0))
  }

  lemma GetOnePage(t: Tables, m: seq<int>, a: int, n: nat, s: bool)
    requires TablesOk(t) && |m| == TWO_32 && IsLong(a) && (n == 1 || n == 2 || n == 4)
    requires a % t.pageSize + n <= t.pageSize
    ensures var f := Translation(t, a, s, false);
            && (f.At? ==> 0 <= f.phys && f.phys + n <= TWO_32)
            && Value(GetBytes(t, m, a, n, s)) ==
               if f.Fault? then None
               else Some(if n == 1 then m[f.phys] else if n == 2 then WordAt(m, f.phys) else LongAt(m, f.phys))
  {
    hide Translation, AllAligned, GetBytes;
    OnePageGet(t, m, a, n, s);
  }

  /** A word at an even address lies in one page, and so does the next. */
  lemma EvenWordFits(t: Tables, a: int)
    requires TablesOk(t) && IsLong(a) && a % 2 == 0
    ensures a % t.pageSize + 2 <= t.pageSize && U32(a + 2) % t.pageSize + 2 <= t.pageSize
  {
    assert U32(a + 2) % 2 == 0;
    AlignedFits(t.pageSize, a, 2);
    AlignedFits(t.pageSize, U32(a + 2), 2);
  }

  lemma LongInWords(v: int)
    ensures Long(v) == Word(v / 0x1_0000) + Word(v)
  {
    assert v / 0x1_0000 / 0x100 == v / 0x100_0000;
  }

  lemma FlushKeepsAgreement(t: Tables, before: seq<Entry>, after: seq<Entry>, w: bool, a: int, s: bool)
    requires (t.pageSize == 4096 || t.pageSize == 8192) && Agrees(t, before, w) && |before| == |after| && IsLong(a)
    requires forall i :: 0 <= i < |after| ==> after[i] == Flushed(before[i], a, TagOf(a / t.pageSize, s))
    ensures Agrees(t, after, w)
    ensures forall i :: 0 <= i < |after| ==> after[i].log != TagOf(a / t.pageSize, s)
  {
  }
}
