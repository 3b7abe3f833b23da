/** The relocation table handed to the guest when the boot ROM is copied to RAM
    (src/core/autoconf.cpp): recording addresses, the two passes of boot_rom_copy, and the guest loop
    that reads the table back. */
module RelocTable {
  import opened BigEndian
  import opened Collections
  import opened Words

  const MAX_ABSOLUTE_ROM_ADDRESS := 1024

  /* ---------- Recording ---------- */

  datatype Outcome = Ignored | Duplicate | Saved | Aborted

  /** What one call of save_rom_absolute does to the recorded addresses. */
  function SaveOutcome(recorded: seq<int>, romMoved: bool, a: int): Outcome {
    if romMoved then Ignored
    else if |recorded| >= MAX_ABSOLUTE_ROM_ADDRESS then Aborted
    else if a in recorded then Duplicate
    else Saved
  }

  datatype Recording = Running(recorded: seq<int>) | Stopped

  /** A run of calls before the ROM has been moved; an abort ends the program. */
  function SaveAll(calls: seq<int>): Recording {
    if calls == [] then Running([])
    else match SaveAll(calls[..|calls| - 1]) {
      case Stopped => Stopped
      case Running(recorded) =>
        var a := calls[|calls| - 1];
        match SaveOutcome(recorded, false, a) {
          case Aborted => Stopped
          case Saved => Running(recorded + [a])
          case Duplicate => Running(recorded)
          case Ignored => Running(recorded)
        }
    }
  }

  /** A run that does not stop records every address given, once. */
  lemma {:induction false} RecordsEachOnce(calls: seq<int>)
    requires SaveAll(calls).Running?
    ensures var r := SaveAll(calls).recorded;
            Distinct(r) && Elements(r) == Elements(calls) && |r| <= 1024
  {
    if calls != [] {
      var n := |calls| - 1;
      RecordsEachOnce(calls[..n]);
      assert Elements(calls) == Elements(calls[..n]) + {calls[n]};
      var r := SaveAll(calls[..n]).recorded;
      assert Elements(r + [calls[n]]) == Elements(r) + {calls[n]};
    }
  }

  lemma ElementsGrow(calls: seq<int>, n: nat)
    requires n <= |calls|
    ensures |Elements(calls[..n])| <= |Elements(calls)|
  {
    SubsetCount(Elements(calls[..n]), Elements(calls));
  }

  lemma SubsetCount(a: set<int>, b: set<int>)
    requires a <= b
    ensures |a| <= |b|
  {
    assert b == a + (b - a);
  }

  /** The program stops exactly when some call comes after the table has been filled: even a call that
      gives an address already recorded. */
  lemma {:induction false} StopsWhenFull(calls: seq<int>)
    ensures SaveAll(calls).Stopped? <==>
            |calls| > 0 && |Elements(calls[..|calls| - 1])| >= 1024
  {
    if calls != [] {
      var n := |calls| - 1;
      StopsWhenFull(calls[..n]);
      if SaveAll(calls[..n]).Stopped? {
        assert calls[..n][..n - 1] == calls[..n - 1];
        ElementsGrow(calls[..n], n - 1);
      } else {
        RecordsEachOnce(calls[..n]);
        DistinctSize(SaveAll(calls[..n]).recorded);
      }
    }
  }

  /* ---------- The table ---------- */

  /** The test of both passes, on 32-bit addresses: the end of the bank wraps. */
  predicate InBank(base: int, a: int) {
    base <= a < U32(base + 0x10000)
  }

  function Inside(base: int, addrs: seq<int>): seq<int> {
    if addrs == [] then []
    else
      var n := |addrs| - 1;
      Inside(base, addrs[..n]) + if InBank(base, addrs[n]) then [addrs[n]] else []
  }

  function Outside(base: int, addrs: seq<int>): seq<int> {
    if addrs == [] then []
    else
      var n := |addrs| - 1;
      Outside(base, addrs[..n]) + if InBank(base, addrs[n]) then [] else [addrs[n]]
  }

  function WordsOf(ws: seq<int>): (r: seq<int>)
    ensures |r| == 2 * |ws|
  {
    if ws == [] then [] else WordsOf(ws[..|ws| - 1]) + Word(ws[|ws| - 1] % 0x10000)
  }

  function LongsOf(ls: seq<int>): (r: seq<int>)
    ensures |r| == 4 * |ls|
  {
    if ls == [] then [] else LongsOf(ls[..|ls| - 1]) + Long(ls[|ls| - 1])
  }

  /** What the guest is given. */
  function Table(base: int, addrs: seq<int>): seq<int> {
    Long(base) + WordsOf(Inside(base, addrs)) + Word(0) + LongsOf(Outside(base, addrs)) + Long(0)
  }

  /** The count of the first pass. */
  function TableSize(base: int, addrs: seq<int>): int {
    10 + 2 * |Inside(base, addrs)| + 4 * |Outside(base, addrs)|
  }

  /** The two lists hold every address, each as often as it was recorded, on its own side. */
  lemma Partition(base: int, addrs: seq<int>)
    ensures multiset(Inside(base, addrs)) + multiset(Outside(base, addrs)) == multiset(addrs)
    ensures forall a :: a in Inside(base, addrs) ==> InBank(base, a) && a in addrs
    ensures forall a :: a in Outside(base, addrs) ==> !InBank(base, a) && a in addrs
  {
    PartitionBag(base, addrs);
    Sides(base, addrs);
  }

  lemma {:induction false} PartitionBag(base: int, addrs: seq<int>)
    ensures multiset(Inside(base, addrs)) + multiset(Outside(base, addrs)) == multiset(addrs)
  {
    hide InBank;
    if addrs != [] {
      var n := |addrs| - 1;
      PartitionBag(base, addrs[..n]);
      assert addrs == addrs[..n] + [addrs[n]];
    }
  }

  lemma {:induction false} Sides(base: int, addrs: seq<int>)
    ensures forall a :: a in Inside(base, addrs) ==> InBank(base, a) && a in addrs
    ensures forall a :: a in Outside(base, addrs) ==> !InBank(base, a) && a in addrs
  {
    hide InBank;
    if addrs != [] { Sides(base, addrs[..|addrs| - 1]); }
  }

  /** The bank of 64K from `base` decides the side of each address; its end wraps to zero, so that no address is in
      the last bank. */
  lemma SideOf(base: int, a: int)
    ensures Inside(base, [a]) == if base <= a < (base + 65536) % 0x1_0000_0000 then [a] else []
    ensures Outside(base, [a]) == if base <= a < (base + 65536) % 0x1_0000_0000 then [] else [a]
  {
    var none: seq<int> := [];
    assert [a][..0] == none;
  }

  /** The order of recording is kept on both sides. */
  lemma {:induction false} KeepsOrder(base: int, first: seq<int>, second: seq<int>)
    ensures Inside(base, first + second) == Inside(base, first) + Inside(base, second)
    ensures Outside(base, first + second) == Outside(base, first) + Outside(base, second)
  {
    hide Inside, Outside, InBank;
    var n := |second| - 1;
    if second == [] {
      EmptyInside(base);
      EmptyOutside(base);
      assert first + second == first;
    } else {
      KeepsOrder(base, first, second[..n]);
      JoinOne(base, first + second[..n], second[n]);
      JoinOne(base, second[..n], second[n]);
      assert second == second[..n] + [second[n]];
      assert first + second == first + second[..n] + [second[n]];
    }
  }

  lemma JoinOne(base: int, addrs: seq<int>, a: int)
    ensures Inside(base, addrs + [a]) == Inside(base, addrs) + if InBank(base, a) then [a] else []
    ensures Outside(base, addrs + [a]) == Outside(base, addrs) + if InBank(base, a) then [] else [a]
  {
    assert (addrs + [a])[..|addrs|] == addrs;
  }

  /* ---------- The guest's reader ---------- */

  /** A list read up to its zero, and where reading stopped. */
  datatype Read = Read(list: seq<int>, rest: seq<int>)

  /** The first loop: offsets from `base` until a zero word. */
  function ReadWords(base: int, s: seq<int>): (r: Read)
    ensures |r.rest| <= |s|
  {
    if |s| < 2 || WordAt(s, 0) == 0 then Read([], if |s| < 2 then [] else s[2..])
    else
      var r := ReadWords(base, s[2..]);
      Read([U32(base + WordAt(s, 0))] + r.list, r.rest)
  }

  /** The second loop: addresses until a zero long. */
  function ReadLongs(s: seq<int>): seq<int> {
    if |s| < 4 || LongAt(s, 0) == 0 then [] else [LongAt(s, 0)] + ReadLongs(s[4..])
  }

  datatype Decoded = Decoded(base: int, inside: seq<int>, outside: seq<int>)

  function Decode(s: seq<int>): Decoded
    requires |s| >= 4
  {
    var base := LongAt(s, 0);
    var r := ReadWords(base, s[4..]);
    Decoded(base, r.list, ReadLongs(r.rest))
  }

  predicate Addresses(addrs: seq<int>) {
    forall a :: a in addrs ==> IsLong(a)
  }

  lemma {:induction false} WordsFront(ws: seq<int>)
    requires ws != []
    ensures WordsOf(ws) == Word(ws[0] % 0x10000) + WordsOf(ws[1..])
  {
    var n := |ws| - 1;
    if n > 0 {
      WordsFront(ws[..n]);
      assert ws[..n][1..] == ws[1..][..n - 1];
    }
  }

  lemma {:induction false} LongsFront(ls: seq<int>)
    requires ls != []
    ensures LongsOf(ls) == Long(ls[0]) + LongsOf(ls[1..])
  {
    var n := |ls| - 1;
    if n > 0 {
      LongsFront(ls[..n]);
      assert ls[..n][1..] == ls[1..][..n - 1];
    }
  }

  lemma ReadWordStep(base: int, x: int, rest: seq<int>)
    requires IsWord(x)
    ensures ReadWords(base, Word(x) + rest) ==
            if x == 0 then Read([], rest)
            else Read([U32(base + x)] + ReadWords(base, rest).list, ReadWords(base, rest).rest)
  {
    WordRoundTrip(x);
    var s := Word(x) + rest;
    assert s[2..] == rest && WordAt(s, 0) == WordAt(Word(x), 0);
  }

  lemma ReadLongStep(x: int, rest: seq<int>)
    requires IsLong(x)
    ensures ReadLongs(Long(x) + rest) == if x == 0 then [] else [x] + ReadLongs(rest)
  {
    LongRoundTrip(x);
    var s := Long(x) + rest;
    assert s[4..] == rest && LongAt(s, 0) == LongAt(Long(x), 0);
  }

  /** Offsets of one aligned bank are read back as the addresses they came from, unless one is the
      start of the bank: then the list ends there. */
  lemma {:induction false} WordsReadBack(base: int, ws: seq<int>, tail: seq<int>)
    requires IsLong(base) && base % 0x10000 == 0
    requires forall a :: a in ws ==> IsLong(a) && InBank(base, a)
    ensures base !in ws ==> ReadWords(base, WordsOf(ws) + (Word(0) + tail)) == Read(ws, tail)
    ensures base in ws ==> |ReadWords(base, WordsOf(ws) + (Word(0) + tail)).list| < |ws|
  {
    hide Word, WordAt, InBank, ReadWords, U32;
    var end := Word(0) + tail;
    if ws == [] {
      ReadWordStep(base, 0, tail);
      assert WordsOf(ws) + end == end;
    } else {
      WordsFront(ws);
      assert ws[0] in ws;
      OffsetOf(base, ws[0]);
      assert WordsOf(ws) + end == Word(ws[0] % 0x10000) + (WordsOf(ws[1..]) + end);
      ReadWordStep(base, ws[0] % 0x10000, WordsOf(ws[1..]) + end);
      WordsReadBack(base, ws[1..], tail);
      assert ws == [ws[0]] + ws[1..];
    }
  }

  lemma OffsetOf(base: int, a: int)
    requires IsLong(base) && base % 0x10000 == 0 && IsLong(a) && InBank(base, a)
    ensures U32(base + a % 0x10000) == a && (a % 0x10000 == 0 <==> a == base)
  {
    assert base + 0x10000 < 0x1_0000_0000;
    assert a % 0x10000 == a - base;
  }

  lemma {:induction false} LongsReadBack(ls: seq<int>)
    requires Addresses(ls)
    ensures 0 !in ls ==> ReadLongs(LongsOf(ls) + Long(0)) == ls
    ensures 0 in ls ==> |ReadLongs(LongsOf(ls) + Long(0))| < |ls|
  {
    hide Long, LongAt, ReadLongs;
    var none: seq<int> := [];
    if ls == [] {
      ReadLongStep(0, none);
      assert LongsOf(ls) + Long(0) == Long(0) + none;
    } else {
      LongsFront(ls);
      assert ls[0] in ls;
      assert LongsOf(ls) + Long(0) == Long(ls[0]) + (LongsOf(ls[1..]) + Long(0));
      ReadLongStep(ls[0], LongsOf(ls[1..]) + Long(0));
      LongsReadBack(ls[1..]);
      assert ls == [ls[0]] + ls[1..];
    }
  }

  /** The address is written as the zero that ends its list. */
  predicate WrittenAsZero(base: int, a: int) {
    a == if base <= a < (base + 65536) % 0x1_0000_0000 then base else 0
  }

  /** For every aligned base and every list of addresses, the guest reads back the base and exactly the
      recorded addresses if and only if none of them is written as zero: the start of the bank, or
      address 0 outside it. */
  lemma RoundTripExactlyWhen(base: int, addrs: seq<int>)
    requires IsLong(base) && base % 0x10000 == 0 && Addresses(addrs)
    ensures Decode(Table(base, addrs)) == Decoded(base, Inside(base, addrs), Outside(base, addrs)) <==>
            (forall a :: a in addrs ==> !WrittenAsZero(base, a))
  {
    hide Inside, Outside, WordsOf, LongsOf, ReadWords, ReadLongs, InBank, Word, Long, LongAt, Table, WrittenAsZero;
    var ins, outs := Inside(base, addrs), Outside(base, addrs);
    BaseReadBack(base, addrs);
    Partition(base, addrs);
    InsideOrOutside(base, addrs);
    WordsReadBack(base, ins, LongsOf(outs) + Long(0));
    LongsReadBack(outs);
  }

  lemma BaseReadBack(base: int, addrs: seq<int>)
    requires IsLong(base)
    ensures var t := Table(base, addrs);
            |t| >= 4 && LongAt(t, 0) == base &&
            t[4..] == WordsOf(Inside(base, addrs)) + (Word(0) + (LongsOf(Outside(base, addrs)) + Long(0)))
  {
    hide Inside, Outside, WordsOf, LongsOf, Word, Long;
    LongRoundTrip(base);
    var head, ws, ls := Long(base), WordsOf(Inside(base, addrs)), LongsOf(Outside(base, addrs));
    var t := Table(base, addrs);
    assert t == head + (ws + (Word(0) + (ls + Long(0))));
    assert forall i :: 0 <= i < 4 ==> t[i] == head[i];
  }

  lemma InsideOrOutside(base: int, addrs: seq<int>)
    ensures (base in Inside(base, addrs) || 0 in Outside(base, addrs)) <==>
            (exists a :: a in addrs && WrittenAsZero(base, a))
  {
    hide Inside, Outside;
    Partition(base, addrs);
    if a :| a in addrs && WrittenAsZero(base, a) {
      assert a in multiset(addrs);
    }
    if base in Inside(base, addrs) { assert WrittenAsZero(base, base); }
    if 0 in Outside(base, addrs) { assert WrittenAsZero(base, 0); }
  }

  /** A run of recordings that gives no such address reaches the guest whole: it reads back every
      address given, none of them twice. */
  lemma NothingLostOrRepeated(base: int, calls: seq<int>)
    requires IsLong(base) && base % 0x10000 == 0 && Addresses(calls) && SaveAll(calls).Running?
    requires forall a :: a in calls ==> !WrittenAsZero(base, a)
    ensures var d := Decode(Table(base, SaveAll(calls).recorded));
            d.base == base && Distinct(d.inside + d.outside) && Elements(d.inside + d.outside) == Elements(calls)
  {
    hide Table, Decode, WrittenAsZero, Inside, Outside;
    var r := SaveAll(calls).recorded;
    RecordsEachOnce(calls);
    assert forall a :: a in r ==> a in Elements(r);
    RoundTripExactlyWhen(base, r);
    Partition(base, r);
    var both := Inside(base, r) + Outside(base, r);
    assert multiset(both) == multiset(r);
    SameBag(r, both);
  }

  /** A rearrangement of distinct elements is distinct. */
  lemma SameBag(s: seq<int>, t: seq<int>)
    requires Distinct(s) && multiset(s) == multiset(t)
    ensures Distinct(t) && Elements(s) == Elements(t)
  {
    forall a ensures a in s <==> a in t {
      assert a in multiset(s) <==> a in multiset(t);
    }
    forall i, j | 0 <= i < j < |t| ensures t[i] != t[j] {
      if t[i] == t[j] {
        assert t == t[..i] + [t[i]] + t[i + 1..j] + [t[j]] + t[j + 1..];
        assert multiset(t)[t[i]] >= 2;
        OnlyOnce(s, t[i]);
      }
    }
  }

  lemma {:induction false} OnlyOnce(s: seq<int>, a: int)
    requires Distinct(s)
    ensures multiset(s)[a] <= 1
  {
    if s != [] {
      var n := |s| - 1;
      OnlyOnce(s[..n], a);
      assert s == s[..n] + [s[n]];
      if s[n] == a { assert a !in s[..n]; }
    }
  }

  /* ---------- The code in place ---------- */

  class RomRelocations {
    const addresses: array<int>
    var count: int
    var romMoved: bool
    var writeEnabled: bool

    ghost predicate Valid()
      reads this
    {
      addresses.Length == MAX_ABSOLUTE_ROM_ADDRESS && 0 <= count <= MAX_ABSOLUTE_ROM_ADDRESS
    }

    ghost function Recorded(): seq<int>
      requires Valid()
      reads this, addresses
    {
      addresses[..count]
    }

    constructor ()
      ensures Valid() && fresh(addresses) && Recorded() == [] && !romMoved && !writeEnabled
    {
      addresses := new int[MAX_ABSOLUTE_ROM_ADDRESS];
      count, romMoved, writeEnabled := 0, false, false;
    }

    /** save_rom_absolute */
    method SaveRomAbsolute(a: int) returns (outcome: Outcome)
      requires Valid()
      modifies `count, addresses
      ensures Valid()
      ensures outcome == SaveOutcome(old(Recorded()), romMoved, a)
      ensures Recorded() == old(Recorded()) + if outcome.Saved? then [a] else []
      ensures outcome.Saved? <==> !romMoved && |old(Recorded())| < 1024 && a !in old(Recorded())
      ensures outcome.Aborted? <==> !romMoved && |old(Recorded())| >= 1024
    {
      if romMoved { return Ignored; }
      if count >= MAX_ABSOLUTE_ROM_ADDRESS { return Aborted; }
      var i := 0;
      while i < count
        modifies {}
        invariant 0 <= i <= count
        invariant a !in addresses[..i]
      {
        if addresses[i] == a { return Duplicate; }
        i := i + 1;
      }
      addresses[count] := a;
      count := count + 1;
      return Saved;
    }

    /** The first pass of boot_rom_copy. */
    method CountBytes(base: int) returns (size: int)
      requires Valid()
      ensures size == TableSize(base, Recorded())
    {
      size := 4 + 2 + 4;
      var i := 0;
      while i < count
        invariant 0 <= i <= count
        invariant size == TableSize(base, addresses[..i])
      {
        assert addresses[..i + 1][..i] == addresses[..i];
        if InBank(base, addresses[i]) { size := size + 2; } else { size := size + 4; }
        i := i + 1;
      }
    }

    /** The second pass: the list of the addresses inside the bank. */
    method WriteInside(base: int, table: array<int>, start: int) returns (p: int)
      requires Valid() && table != addresses
      requires 0 <= start && start + 2 * |Inside(base, Recorded())| <= table.Length
      modifies table
      ensures p == start + 2 * |Inside(base, Recorded())|
      ensures table[..p] == old(table[..start]) + WordsOf(Inside(base, Recorded()))
    {
      hide Inside, Outside, WordsOf, LongsOf, Word, Long, InBank;
      p := start;
      ghost var all := Recorded();
      EmptyInside(base);
      var i := 0;
      assert all[..0] == [];
      while i < count
        invariant 0 <= i <= count && all == Recorded()
        invariant p == start + 2 * |Inside(base, all[..i])| <= table.Length
        invariant table[..p] == old(table[..start]) + WordsOf(Inside(base, all[..i]))
      {
        InsideGrows(base, all, i);
        if InBank(base, addresses[i]) {
          PutWordHost(table, p, addresses[i] % 0x10000);
          p := p + 2;
          assert table[..p] == old(table[..start]) + (WordsOf(Inside(base, all[..i])) + Word(all[i] % 0x10000));
        }
        i := i + 1;
      }
      assert all[..count] == all;
    }

    /** The second pass: the list of the addresses outside the bank. */
    method WriteOutside(base: int, table: array<int>, start: int) returns (p: int)
      requires Valid() && table != addresses
      requires 0 <= start && start + 4 * |Outside(base, Recorded())| <= table.Length
      modifies table
      ensures p == start + 4 * |Outside(base, Recorded())|
      ensures table[..p] == old(table[..start]) + LongsOf(Outside(base, Recorded()))
    {
      hide Inside, Outside, WordsOf, LongsOf, Word, Long, InBank;
      p := start;
      ghost var all := Recorded();
      EmptyOutside(base);
      var i := 0;
      assert all[..0] == [];
      while i < count
        invariant 0 <= i <= count && all == Recorded()
        invariant p == start + 4 * |Outside(base, all[..i])| <= table.Length
        invariant table[..p] == old(table[..start]) + LongsOf(Outside(base, all[..i]))
      {
        OutsideGrows(base, all, i);
        if !InBank(base, addresses[i]) {
          PutLongHost(table, p, addresses[i]);
          p := p + 4;
          assert table[..p] == old(table[..start]) + (LongsOf(Outside(base, all[..i])) + Long(all[i]));
        }
        i := i + 1;
      }
      assert all[..count] == all;
    }

    /** Both passes: the bytes written are exactly the bytes counted. */
    method WriteTable(base: int) returns (table: array<int>)
      requires Valid()
      ensures fresh(table) && table.Length == TableSize(base, Recorded())
      ensures table[..] == Table(base, Recorded())
    {
      hide Inside, Outside, WordsOf, LongsOf, Word, Long, Table;
      ghost var head, ws, ls := Long(base), WordsOf(Inside(base, Recorded())), LongsOf(Outside(base, Recorded()));
      TableParts(base, Recorded());
      var size := CountBytes(base);
      table := new int[size];
      PutLongHost(table, 0, base);
      assert table[..4] == head;
      var p := WriteInside(base, table, 4);
      PutWordHost(table, p, 0);
      p := p + 2;
      assert table[..p] == head + ws + Word(0);
      p := WriteOutside(base, table, p);
      PutLongHost(table, p, 0);
      assert table[..] == table[..p + 4];
    }

    /** boot_rom_copy: mode 0 opens the area for writing and hands out the table, the other mode closes
        it again.  `room` is the guest address that the board allocator gives. */
    method BootRomCopy(uaeboard: int, base: int, rombase: int, mode: int, room: int)
      returns (reloc: int, table: array?<int>)
      requires Valid()
      modifies `writeEnabled, `romMoved
      ensures Valid() && Recorded() == old(Recorded())
      ensures uaeboard < 3 ==>
              reloc == 0 && table == null && writeEnabled == old(writeEnabled) && romMoved == old(romMoved)
      ensures uaeboard >= 3 && mode == 0 ==> writeEnabled && romMoved == (rombase != 0) && reloc == room
      ensures uaeboard >= 3 && mode == 0 ==> table != null && table[..] == Table(base, Recorded())
      ensures uaeboard >= 3 && mode != 0 ==>
              reloc == 1 && table == null && !writeEnabled && romMoved == old(romMoved)
    {
      hide Table, TableSize;
      table := null;
      if uaeboard < 3 { return 0, null; }
      if mode == 0 {
        writeEnabled, romMoved := true, rombase != 0;
        table := WriteTable(base);
        reloc := room;
      } else {
        writeEnabled := false;
        reloc := 1;
      }
    }
  }

  lemma TableParts(base: int, addrs: seq<int>)
    ensures Table(base, addrs) ==
            Long(base) + WordsOf(Inside(base, addrs)) + Word(0) + LongsOf(Outside(base, addrs)) + Long(0)
  {
  }

  lemma EmptyInside(base: int)
    ensures Inside(base, []) == [] && WordsOf([]) == []
  {
  }

  lemma EmptyOutside(base: int)
    ensures Outside(base, []) == [] && LongsOf([]) == []
  {
  }

  lemma WordsAppend(ws: seq<int>, a: int)
    ensures WordsOf(ws + [a]) == WordsOf(ws) + Word(a % 0x10000)
  {
    assert (ws + [a])[..|ws|] == ws;
  }

  lemma LongsAppend(ls: seq<int>, a: int)
    ensures LongsOf(ls + [a]) == LongsOf(ls) + Long(a)
  {
    assert (ls + [a])[..|ls|] == ls;
  }

  /** One more address of a list: what it adds to the list of its side, and that there is room for it. */
  lemma InsideGrows(base: int, addrs: seq<int>, i: nat)
    requires i < |addrs|
    ensures !InBank(base, addrs[i]) ==> Inside(base, addrs[..i + 1]) == Inside(base, addrs[..i])
    ensures InBank(base, addrs[i]) ==> Inside(base, addrs[..i + 1]) == Inside(base, addrs[..i]) + [addrs[i]]
    ensures InBank(base, addrs[i]) ==>
            WordsOf(Inside(base, addrs[..i + 1])) == WordsOf(Inside(base, addrs[..i])) + Word(addrs[i] % 0x10000)
    ensures |Inside(base, addrs[..i + 1])| <= |Inside(base, addrs)|
    decreases |addrs| - i
  {
    assert addrs[..i + 1][..i] == addrs[..i];
    if InBank(base, addrs[i]) { WordsAppend(Inside(base, addrs[..i]), addrs[i]); }
    if i + 1 < |addrs| { InsideGrows(base, addrs, i + 1); } else { assert addrs[..i + 1] == addrs; }
  }

  lemma OutsideGrows(base: int, addrs: seq<int>, i: nat)
    requires i < |addrs|
    ensures InBank(base, addrs[i]) ==> Outside(base, addrs[..i + 1]) == Outside(base, addrs[..i])
    ensures !InBank(base, addrs[i]) ==> Outside(base, addrs[..i + 1]) == Outside(base, addrs[..i]) + [addrs[i]]
    ensures !InBank(base, addrs[i]) ==>
            LongsOf(Outside(base, addrs[..i + 1])) == LongsOf(Outside(base, addrs[..i])) + Long(addrs[i])
    ensures |Outside(base, addrs[..i + 1])| <= |Outside(base, addrs)|
    decreases |addrs| - i
  {
    assert addrs[..i + 1][..i] == addrs[..i];
    if !InBank(base, addrs[i]) { LongsAppend(Outside(base, addrs[..i]), addrs[i]); }
    if i + 1 < |addrs| { OutsideGrows(base, addrs, i + 1); } else { assert addrs[..i + 1] == addrs; }
  }

  method PutWordHost(a: array<int>, p: int, v: int)
    requires 0 <= p && p + 2 <= a.Length
    modifies a
    ensures a[..p + 2] == old(a[..p]) + Word(v)
  {
    a[p], a[p + 1] := v / 0x100 % 0x100, v % 0x100;
  }

  method PutLongHost(a: array<int>, p: int, v: int)
    requires 0 <= p && p + 4 <= a.Length
    modifies a
    ensures a[..p + 4] == old(a[..p]) + Long(v)
  {
    a[p], a[p + 1] := v / 0x100_0000 % 0x100, v / 0x1_0000 % 0x100;
    a[p + 2], a[p + 3] := v / 0x100 % 0x100, v % 0x100;
  }
}
