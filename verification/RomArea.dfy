/** The memory-mapped boot-ROM area (src/core/autoconf.cpp): which bytes guest accesses can change, and
    the lock word of each trap slot.  Calls into the host (hardware traps, semaphores, wake-ups) change
    none of the modelled bytes. */
module RomArea {
  import opened BigEndian

  const RTAREA_SIZE := 0x10000
  const RTAREA_SYSBASE := 0x7FFC
  const RTAREA_TRAP_DATA := 0x8000
  const RTAREA_TRAP_DATA_SLOT_SIZE := 0x1000
  const RTAREA_TRAP_STATUS := 0xF000
  const RTAREA_TRAP_STATUS_SIZE := 8
  /** RTAREA_TRAP_DATA_NUM + RTAREA_TRAP_DATA_SEND_NUM */
  const TRAP_SLOTS := 5
  const RTAREA_WRITEOFFSET := 0xFFF0
  const RTAREA_INTREQ := 0xFFFC

  datatype Config = Config(uaeboard: int, nodiag: bool, writeEnabled: bool)

  predicate Memory(m: seq<int>) {
    |m| == RTAREA_SIZE && forall i :: 0 <= i < RTAREA_SIZE ==> IsByte(m[i])
  }

  /* ---------- The windows ---------- */

  predicate TrapData(c: Config, a: int) {
    c.uaeboard >= 2 && RTAREA_TRAP_DATA <= a < RTAREA_TRAP_DATA + TRAP_SLOTS * RTAREA_TRAP_DATA_SLOT_SIZE
  }

  predicate TrapStatus(c: Config, a: int) {
    c.uaeboard >= 2 && RTAREA_TRAP_STATUS <= a < RTAREA_TRAP_STATUS + TRAP_SLOTS * RTAREA_TRAP_STATUS_SIZE
  }

  predicate TrapStatusExtra(c: Config, a: int) {
    && c.uaeboard >= 2
    && RTAREA_TRAP_STATUS + 0x100 <= a < RTAREA_TRAP_STATUS + 0x100 + TRAP_SLOTS * RTAREA_TRAP_STATUS_SIZE
  }

  /** What the guest may write while the area is write-protected. */
  predicate Window(c: Config, a: int) {
    || a >= RTAREA_WRITEOFFSET
    || RTAREA_SYSBASE <= a < RTAREA_SYSBASE + 4
    || TrapData(c, a) || TrapStatus(c, a) || TrapStatusExtra(c, a)
  }

  /** rtarea_write */
  predicate Writable(c: Config, a: int) {
    c.writeEnabled || Window(c, a)
  }

  /* ---------- The handlers on values ---------- */

  /** An address as the handlers see it: `addr & 0xffff`. */
  function Low(a: int): (r: int)
    ensures 0 <= r < RTAREA_SIZE
  {
    a % RTAREA_SIZE
  }

  predicate LockBit(b: int) { b / 0x80 % 2 == 1 }

  /** An even address of a slot's lock word, where word accesses lock and unlock. */
  predicate LockWord(c: Config, a: int) {
    !c.nodiag && TrapStatus(c, a) && a % RTAREA_TRAP_STATUS_SIZE == 2
  }

  /** What a read leaves in the area and returns. */
  datatype Got = Got(mem: seq<int>, value: int)

  function Lget(m: seq<int>, addr: int): (r: int)
    requires Memory(m)
  {
    var a := Low(addr);
    if a % 2 == 1 || a >= 0xFFFD then 0 else LongAt(m, a)
  }

  function Wget(c: Config, m: seq<int>, addr: int): (r: Got)
    requires Memory(m)
    ensures Memory(r.mem)
  {
    var a := Low(addr);
    if a % 2 == 1 then Got(m, 0)
    else if LockWord(c, a) then
      if LockBit(m[a + 1]) then Got(m, m[a + 1]) else Got(m[a + 1 := m[a + 1] + 0x80][a := 0], 0)
    else Got(m, WordAt(m, a))
  }

  /** `flag` is the host condition the byte reports: trap mode, interrupt request or waiting trap. */
  function Bget(c: Config, m: seq<int>, addr: int, flag: bool): (r: Got)
    requires Memory(m)
    ensures Memory(r.mem)
  {
    var a := Low(addr);
    var sensed := if flag then 1 else 0;
    if c.nodiag then Got(m, m[a])
    else if TrapStatus(c, a) then
      if a % RTAREA_TRAP_STATUS_SIZE == 0 then Got(m[a := sensed], sensed) else Got(m, m[a])
    else if RTAREA_INTREQ <= a <= RTAREA_INTREQ + 2 then Got(m[a := sensed], sensed)
    else Got(m, m[a])
  }

  function Bput(c: Config, m: seq<int>, addr: int, v: int): (r: seq<int>)
    requires Memory(m)
    ensures Memory(r)
  {
    var a := Low(addr);
    if Writable(c, a) then m[a := v % 0x100] else m
  }

  function Wput(c: Config, m: seq<int>, addr: int, v: int): (r: seq<int>)
    requires Memory(m)
    ensures Memory(r)
  {
    var a := Low(addr);
    if a % 2 == 1 || !Writable(c, a) then m
    else
      var w := if LockWord(c, a) then 0 else v;
      m[a := w / 0x100 % 0x100][a + 1 := w % 0x100]
  }

  function Lput(c: Config, m: seq<int>, addr: int, v: int): (r: seq<int>)
    requires Memory(m)
    ensures Memory(r)
  {
    var a := Low(addr);
    if a % 2 == 1 || a >= 0xFFFD || !Writable(c, a) then m
    else m[a := v / 0x100_0000 % 0x100][a + 1 := v / 0x1_0000 % 0x100][a + 2 := v / 0x100 % 0x100][a + 3 := v % 0x100]
  }

  /* ---------- Runs ---------- */

  datatype Access =
    | ReadLong(addr: int)
    | ReadWord(addr: int)
    | ReadByte(addr: int, flag: bool)
    | WriteByte(addr: int, v: int)
    | WriteWord(addr: int, v: int)
    | WriteLong(addr: int, v: int)

  function Do(c: Config, m: seq<int>, e: Access): (r: Got)
    requires Memory(m)
    ensures Memory(r.mem)
  {
    match e
    case ReadLong(a) => Got(m, Lget(m, a))
    case ReadWord(a) => Wget(c, m, a)
    case ReadByte(a, flag) => Bget(c, m, a, flag)
    case WriteByte(a, v) => Got(Bput(c, m, a, v), 0)
    case WriteWord(a, v) => Got(Wput(c, m, a, v), 0)
    case WriteLong(a, v) => Got(Lput(c, m, a, v), 0)
  }

  function DoAll(c: Config, m: seq<int>, es: seq<Access>): (r: seq<int>)
    requires Memory(m)
    ensures Memory(r)
  {
    if es == [] then m else Do(c, DoAll(c, m, es[..|es| - 1]), es[|es| - 1]).mem
  }

  /** Every byte outside the windows is the same. */
  ghost predicate RomKept(c: Config, m: seq<int>, n: seq<int>) {
    |m| == |n| && forall i :: 0 <= i < |m| && !Window(c, i) ==> n[i] == m[i]
  }

  /** The last word of a window: a long written there reaches two bytes past it. */
  predicate LastWordOfWindow(c: Config, a: int) {
    if c.uaeboard < 2 then a == RTAREA_SYSBASE + 2
    else a == 0xCFFE || a == 0xF026 || a == 0xF126
  }

  predicate Spills(c: Config, e: Access) {
    e.WriteLong? && LastWordOfWindow(c, Low(e.addr))
  }

  /** With writes disabled an access keeps every byte outside the windows, whatever the area holds, if and only
      if it is not a long write to the last word of a window. */
  lemma KeepsRomExactlyWhen(c: Config, e: Access)
    requires !c.writeEnabled
    ensures (forall m :: Memory(m) ==> RomKept(c, m, Do(c, m, e).mem)) <==> !Spills(c, e)
  {
    if Spills(c, e) {
      SpillBreaks(c, e);
    } else {
      forall m | Memory(m) ensures RomKept(c, m, Do(c, m, e).mem) {
        AccessKeepsRom(c, m, e);
      }
    }
  }

  /** An area in which every byte differs from the last one that the access writes. */
  function Differing(e: Access): (m: seq<int>)
    requires e.WriteLong?
    ensures Memory(m) && forall i :: 0 <= i < RTAREA_SIZE ==> m[i] != e.v % 0x100
  {
    seq(RTAREA_SIZE, i => (e.v + 1) % 0x100)
  }

  lemma SpillBreaks(c: Config, e: Access)
    requires !c.writeEnabled && Spills(c, e)
    ensures Memory(Differing(e)) && !RomKept(c, Differing(e), Do(c, Differing(e), e).mem)
  {
    hide Differing;
    var a, m := Low(e.addr), Differing(e);
    assert Do(c, m, e).mem[a + 3] == e.v % 0x100;
  }

  lemma AccessKeepsRom(c: Config, m: seq<int>, e: Access)
    requires !c.writeEnabled && Memory(m) && !Spills(c, e)
    ensures RomKept(c, m, Do(c, m, e).mem)
  {
    hide Window, LockWord;
    match e
    case ReadLong(_) =>
    case ReadWord(a) => EvenWindow(c, Low(a)); LockIsWindow(c, Low(a));
    case ReadByte(a, _) => StatusIsWindow(c, Low(a));
    case WriteByte(_, _) =>
    case WriteWord(a, _) => EvenWindow(c, Low(a));
    case WriteLong(a, _) => LongWindow(c, Low(a));
  }

  /** Windows begin and end at even addresses. */
  lemma EvenWindow(c: Config, a: int)
    requires 0 <= a < RTAREA_SIZE
    ensures a % 2 == 0 ==> a + 1 < RTAREA_SIZE && (Window(c, a) ==> Window(c, a + 1))
  {
  }

  /** A long at an even address of a window stays inside unless it is its last word. */
  lemma LongWindow(c: Config, a: int)
    requires 0 <= a < RTAREA_SIZE && !LastWordOfWindow(c, a)
    ensures a % 2 == 0 && a < 0xFFFD && Window(c, a) ==> Window(c, a + 1) && Window(c, a + 2) && Window(c, a + 3)
  {
  }

  lemma LockIsWindow(c: Config, a: int)
    ensures LockWord(c, a) ==> Window(c, a)
  {
  }

  lemma StatusIsWindow(c: Config, a: int)
    ensures TrapStatus(c, a) || RTAREA_INTREQ <= a <= RTAREA_INTREQ + 2 ==> Window(c, a)
  {
  }

  /** A long write to a multiple of four never spills. */
  lemma AlignedNeverSpills(c: Config, e: Access)
    requires e.WriteLong? && e.addr % 4 == 0
    ensures !Spills(c, e)
  {
    assert Low(e.addr) % 4 == 0;
  }

  /** Over any run with writes disabled and no spilling write, nothing outside the windows changes. */
  lemma {:induction false} RunKeepsRom(c: Config, m: seq<int>, es: seq<Access>)
    requires !c.writeEnabled && Memory(m)
    requires forall i :: 0 <= i < |es| ==> !Spills(c, es[i])
    ensures RomKept(c, m, DoAll(c, m, es))
  {
    hide Do, Window;
    if es != [] {
      var n := |es| - 1;
      RunKeepsRom(c, m, es[..n]);
      AccessKeepsRom(c, DoAll(c, m, es[..n]), es[n]);
    }
  }

  /* ---------- The slot lock ---------- */

  /** The lock word of a slot. */
  function LockOf(slot: int): int { RTAREA_TRAP_STATUS + slot * RTAREA_TRAP_STATUS_SIZE + 2 }

  predicate Locked(m: seq<int>, slot: int)
    requires Memory(m) && 0 <= slot < TRAP_SLOTS
  {
    LockBit(m[LockOf(slot) + 1])
  }

  /** The write reaches the lock word of the slot. */
  predicate WritesLock(e: Access, slot: int) {
    var lock := LockOf(slot);
    || (e.WriteByte? && lock <= Low(e.addr) <= lock + 1)
    || (e.WriteWord? && Low(e.addr) == lock)
    || (e.WriteLong? && lock - 2 <= Low(e.addr) <= lock)
  }

  /** The area and the clients that believe they hold the slot: they read zero from the lock word and
      have not written it since. */
  datatype Shared = Shared(mem: seq<int>, holders: set<int>)

  datatype Turn = Turn(client: int, access: Access)

  function Take(c: Config, slot: int, s: Shared, t: Turn): Shared
    requires Memory(s.mem)
  {
    var got := Do(c, s.mem, t.access);
    Shared(got.mem,
           if t.access.ReadWord? && Low(t.access.addr) == LockOf(slot) && got.value == 0 then s.holders + {t.client}
           else if WritesLock(t.access, slot) then s.holders - {t.client}
           else s.holders)
  }

  /** Clients write the lock word only as a word, and only to release what they hold. */
  predicate Obeys(slot: int, s: Shared, t: Turn) {
    WritesLock(t.access, slot) ==> t.access.WriteWord? && t.client in s.holders
  }

  ghost predicate LockInv(slot: int, s: Shared)
    requires 0 <= slot < TRAP_SLOTS
  {
    && Memory(s.mem)
    && (Locked(s.mem, slot) <==> s.holders != {})
    && forall a, b :: a in s.holders && b in s.holders ==> a == b
  }

  /** One turn keeps the lock and its holder together. */
  lemma TurnKeepsLock(c: Config, slot: int, s: Shared, t: Turn)
    requires c.uaeboard >= 2 && !c.nodiag && 0 <= slot < TRAP_SLOTS && LockInv(slot, s) && Obeys(slot, s, t)
    ensures LockInv(slot, Take(c, slot, s, t))
  {
    hide Do, Locked;
    LockByte(c, slot, s.mem, t.access);
    if WritesLock(t.access, slot) {
      assert forall a :: a in s.holders ==> a == t.client;
      assert s.holders == {t.client};
    }
  }

  /** The lock bit changes only when a word read of the free lock takes it or a write reaches it. */
  lemma LockByte(c: Config, slot: int, m: seq<int>, e: Access)
    requires c.uaeboard >= 2 && !c.nodiag && Memory(m) && 0 <= slot < TRAP_SLOTS
    ensures e.ReadWord? && Low(e.addr) == LockOf(slot) ==>
            Locked(Do(c, m, e).mem, slot) && (Do(c, m, e).value == 0 <==> !Locked(m, slot))
    ensures e.WriteWord? && Low(e.addr) == LockOf(slot) ==> !Locked(Do(c, m, e).mem, slot)
    ensures !(e.ReadWord? && Low(e.addr) == LockOf(slot)) && !WritesLock(e, slot) ==>
            Locked(Do(c, m, e).mem, slot) == Locked(m, slot)
  {
  }

  ghost function Turns(c: Config, slot: int, s: Shared, ts: seq<Turn>): (r: Shared)
    requires Memory(s.mem)
    ensures Memory(r.mem)
  {
    if ts == [] then s else Take(c, slot, Turns(c, slot, s, ts[..|ts| - 1]), ts[|ts| - 1])
  }

  /** Over any run of obedient clients, mixing any other accesses, the slot has at most one holder, and
      it is locked exactly while it has one. */
  lemma {:induction false} AtMostOneHolder(c: Config, slot: int, m: seq<int>, ts: seq<Turn>)
    requires c.uaeboard >= 2 && !c.nodiag && Memory(m) && 0 <= slot < TRAP_SLOTS && !Locked(m, slot)
    requires forall i :: 0 <= i < |ts| ==> Obeys(slot, Turns(c, slot, Shared(m, {}), ts[..i]), ts[i])
    ensures LockInv(slot, Turns(c, slot, Shared(m, {}), ts))
  {
    hide Take, Obeys;
    if ts != [] {
      var n := |ts| - 1;
      assert forall i :: 0 <= i < n ==> ts[..n][..i] == ts[..i];
      AtMostOneHolder(c, slot, m, ts[..n]);
      TurnKeepsLock(c, slot, Turns(c, slot, Shared(m, {}), ts[..n]), ts[n]);
    }
  }

  /* ---------- The handlers in place ---------- */

  class RtArea {
    const baseaddr: array<int>
    const config: Config

    ghost predicate Valid()
      reads baseaddr
    {
      Memory(baseaddr[..])
    }

    constructor (config: Config)
      ensures Valid() && fresh(baseaddr) && this.config == config
    {
      baseaddr := new int[RTAREA_SIZE](_ => 0);
      this.config := config;
    }

    method ReadLong(addr: int) returns (v: int)
      requires Valid()
      ensures v == Lget(baseaddr[..], addr)
    {
      var a := Low(addr);
      if a % 2 == 1 { return 0; }
      if a >= 0xFFFD { return 0; }
      v := baseaddr[a] * 0x100_0000 + baseaddr[a + 1] * 0x1_0000 + baseaddr[a + 2] * 0x100 + baseaddr[a + 3];
    }

    method ReadWord(addr: int) returns (v: int)
      requires Valid()
      modifies baseaddr
      ensures Valid() && Got(baseaddr[..], v) == Wget(config, old(baseaddr[..]), addr)
    {
      var a := Low(addr);
      if a % 2 == 1 { return 0; }
      if LockWord(config, a) {
        if LockBit(baseaddr[a + 1]) { return baseaddr[a + 1]; }
        baseaddr[a + 1] := baseaddr[a + 1] + 0x80;
        baseaddr[a] := 0;
        return 0;
      }
      v := baseaddr[a] * 0x100 + baseaddr[a + 1];
    }

    method ReadByte(addr: int, flag: bool) returns (v: int)
      requires Valid()
      modifies baseaddr
      ensures Valid() && Got(baseaddr[..], v) == Bget(config, old(baseaddr[..]), addr, flag)
    {
      var a := Low(addr);
      if config.nodiag { return baseaddr[a]; }
      if TrapStatus(config, a) {
        if a % RTAREA_TRAP_STATUS_SIZE == 0 { baseaddr[a] := if flag then 1 else 0; }
      } else if RTAREA_INTREQ <= a <= RTAREA_INTREQ + 2 {
        baseaddr[a] := if flag then 1 else 0;
      }
      v := baseaddr[a];
    }

    method WriteByte(addr: int, v: int)
      requires Valid()
      modifies baseaddr
      ensures Valid() && baseaddr[..] == Bput(config, old(baseaddr[..]), addr, v)
    {
      var a := Low(addr);
      if !Writable(config, a) { return; }
      baseaddr[a] := v % 0x100;
    }

    method WriteWord(addr: int, v: int)
      requires Valid()
      modifies baseaddr
      ensures Valid() && baseaddr[..] == Wput(config, old(baseaddr[..]), addr, v)
    {
      var a := Low(addr);
      if a % 2 == 1 { return; }
      if !Writable(config, a) { return; }
      var value := v % 0x1_0000;
      CutWord(v);
      if LockWord(config, a) { value := 0; }
      baseaddr[a] := value / 0x100;
      baseaddr[a + 1] := value % 0x100;
    }

    method WriteLong(addr: int, v: int)
      requires Valid()
      modifies baseaddr
      ensures Valid() && baseaddr[..] == Lput(config, old(baseaddr[..]), addr, v)
    {
      var a := Low(addr);
      if a % 2 == 1 || a >= 0xFFFD { return; }
      if !Writable(config, a) { return; }
      baseaddr[a] := v / 0x100_0000 % 0x100;
      baseaddr[a + 1] := v / 0x1_0000 % 0x100;
      baseaddr[a + 2] := v / 0x100 % 0x100;
      baseaddr[a + 3] := v % 0x100;
    }
  }
}
