/** The restartable bus accesses of the 68030 (include/cpummu030.h).

    Every access of an instruction is numbered.  When one of them takes a page fault the
    instruction is executed again from its start; accesses that had completed are then answered
    from a log instead of going to the bus. */
module AccessLog {

  /** A 32-bit word. */
  type u32 = int

  /** Addresses wrap at 32 bits. */
  function Plus(a: u32, b: u32): u32 { (a + b) % 0x1_0000_0000 }

  type Registers = seq<u32>

  datatype Size = Byte | Word | Long

  /** What an instruction does next.  `Fetch` reads at the program counter and advances it
      (next_iword, next_ilong); `Peek` reads at an offset from it (get_iword, get_ilong); `Latch`
      is state_store_mmu030, whose argument may differ from one attempt to the next. */
  datatype Action =
    | Done(result: Registers)
    | Get(addr: u32, size: Size)
    | Put(addr: u32, size: Size, value: u32)
    | Fetch(long: bool)
    | Peek(offset: u32, long: bool)
    | Latch(offered: nat -> u32)

  /** An instruction is an access tree: the values seen so far decide the next action. */
  type Instr = seq<u32> -> Action

  /** No path of the tree makes more than `n` accesses. */
  ghost predicate Bounded(p: Instr, n: nat) {
    forall h :: |h| >= n ==> p(h).Done?
  }

  /** A completed bus access. */
  datatype Access = Read(addr: u32, size: Size, value: u32) | Write(addr: u32, size: Size, value: u32)

  /** How the bus and the page tables answer the next access that reaches them. */
  datatype Reply = Fault | Reply(value: u32)

  /** `log` is mmu030_ad[..mmu030_idx_done], `idx` is mmu030_idx, `bus` lists the completed
      accesses of all attempts so far and `replies` is what the bus will answer. */
  datatype Machine = Machine(log: seq<u32>, idx: nat, pc: u32, bus: seq<Access>, replies: seq<Reply>)

  /** An access completes (now or in an earlier attempt), takes a fault, or is left unanswered. */
  datatype Got = Completed | Trap | NoReply

  datatype Ended = Finished(result: Registers) | Faulted | Starved

  function FetchSize(long: bool): Size { if long then Long else Word }

  /** The program counter after a completed action. */
  function Moved(a: Action, pc: u32): u32 {
    if a.Fetch? then Plus(pc, if a.long then 4 else 2) else pc
  }

  /** The access that puts `v` on the bus: at a given address, or relative to the program counter. */
  function AccessOf(a: Action, pc: u32, v: u32): Access
    requires !a.Done? && !a.Latch?
  {
    match a
    case Get(addr, size) => Read(addr, size, v)
    case Put(addr, size, _) => Write(addr, size, v)
    case Fetch(long) => Read(pc, FetchSize(long), v)
    case Peek(offset, long) => Read(Plus(pc, offset), FetchSize(long), v)
  }

  /** What a getter or putter does between ACCESS_CHECK and ACCESS_EXIT: answer from the log while
      `idx` has not reached its end, otherwise go to the bus and log the value read or written. */
  function BusAccess(m: Machine, a: Action): (Machine, Got)
    requires !a.Done? && !a.Latch?
  {
    if m.idx < |m.log| then (m.(idx := m.idx + 1), Completed)
    else if m.replies == [] then (m.(idx := m.idx + 1), NoReply)
    else if m.replies[0].Fault? then (m.(idx := m.idx + 1, replies := m.replies[1..]), Trap)
    else
      var v := if a.Put? then a.value else m.replies[0].value;
      (m.(idx := m.idx + 1, log := m.log + [v], bus := m.bus + [AccessOf(a, m.pc, v)],
          replies := m.replies[1..]), Completed)
  }

  /** state_store_mmu030: the first value offered at this position is the one that sticks. */
  function Stored(m: Machine, v: u32): Machine {
    if m.idx < |m.log| then m.(idx := m.idx + 1) else m.(idx := m.idx + 1, log := m.log + [v])
  }

  /** One access of an instruction.  The program counter moves only past a completed fetch. */
  function Perform(m: Machine, a: Action, attempt: nat): (r: (Machine, Got))
    requires !a.Done? && m.idx <= |m.log|
    ensures r.0.idx == m.idx + 1 && (r.1.Completed? ==> r.0.idx <= |r.0.log|)
    ensures |r.0.replies| <= |m.replies| && (r.1.Trap? ==> |r.0.replies| < |m.replies|)
  {
    if a.Latch? then (Stored(m, a.offered(attempt)), Completed)
    else
      var (n, g) := BusAccess(m, a);
      (if g.Completed? then n.(pc := Moved(a, n.pc)) else n, g)
  }

  /** The instruction from the current access on, up to its end or its first unanswered access. */
  ghost function Attempt(p: Instr, n: nat, m: Machine, attempt: nat): (r: (Machine, Ended))
    requires Bounded(p, n) && m.idx <= |m.log|
    ensures |r.0.replies| <= |m.replies| && (r.1.Faulted? ==> |r.0.replies| < |m.replies|)
    decreases n - m.idx
  {
    var a := p(m.log[..m.idx]);
    if a.Done? then (m, Finished(a.result))
    else
      var (m', g) := Perform(m, a, attempt);
      match g
      case Completed => Attempt(p, n, m', attempt)
      case Trap => (m', Faulted)
      case NoReply => (m', Starved)
  }

  /** A restart puts the program counter back, counts accesses from zero again and keeps the log. */
  function Rewind(m: Machine, start: u32): Machine {
    m.(idx := 0, pc := start)
  }

  /** The instruction, started again after every fault. */
  ghost function Execute(p: Instr, n: nat, m: Machine, start: u32, attempt: nat): (Machine, Ended)
    requires Bounded(p, n)
    decreases |m.replies|
  {
    var (m', e) := Attempt(p, n, Rewind(m, start), attempt);
    if e.Faulted? then Execute(p, n, m', start, attempt + 1) else (m', e)
  }

  /** The same with at most `retries` restarts; after that the CPU is halted in the faulted attempt. */
  ghost function ExecuteFor(p: Instr, n: nat, m: Machine, start: u32, attempt: nat, retries: nat): (Machine, Ended)
    requires Bounded(p, n)
    decreases retries
  {
    var (m', e) := Attempt(p, n, Rewind(m, start), attempt);
    if e.Faulted? && retries > 0 then ExecuteFor(p, n, m', start, attempt + 1, retries - 1) else (m', e)
  }

  function Fresh(start: u32, replies: seq<Reply>): Machine {
    Machine([], 0, start, [], replies)
  }

  /* ---------- One uninterrupted pass, from the values it saw ---------- */

  function PcAfter(p: Instr, start: u32, h: seq<u32>): u32 {
    if h == [] then start
    else
      var before := h[..|h| - 1];
      Moved(p(before), PcAfter(p, start, before))
  }

  /** The bus accesses of a pass that saw the values `h`. */
  function Trace(p: Instr, start: u32, h: seq<u32>): seq<Access> {
    if h == [] then []
    else
      var before := h[..|h| - 1];
      var a := p(before);
      Trace(p, start, before) +
      if a.Done? || a.Latch? then [] else [AccessOf(a, PcAfter(p, start, before), h[|h| - 1])]
  }

  /** The instruction has not ended before the end of `h`, and a write was logged with its value. */
  ghost predicate OnPath(p: Instr, h: seq<u32>) {
    forall k :: 0 <= k < |h| ==>
      var a := p(h[..k]); !a.Done? && (a.Put? ==> a.value == h[k])
  }

  /** The bus has seen exactly the accesses of one pass, as far as the log reaches. */
  ghost predicate OnePass(p: Instr, start: u32, m: Machine) {
    OnPath(p, m.log) && m.bus == Trace(p, start, m.log)
  }

  lemma OnPathSnoc(p: Instr, h: seq<u32>, v: u32)
    requires OnPath(p, h) && !p(h).Done? && (p(h).Put? ==> p(h).value == v)
    ensures OnPath(p, h + [v])
  {
    var g := h + [v];
    forall k | 0 <= k < |g| ensures !p(g[..k]).Done? && (p(g[..k]).Put? ==> p(g[..k]).value == g[k]) {
      if k < |h| { assert g[..k] == h[..k]; } else { assert g[..k] == h; }
    }
  }

  lemma PassSnoc(p: Instr, start: u32, h: seq<u32>, v: u32)
    ensures PcAfter(p, start, h + [v]) == Moved(p(h), PcAfter(p, start, h))
    ensures Trace(p, start, h + [v]) ==
            Trace(p, start, h) +
            if p(h).Done? || p(h).Latch? then [] else [AccessOf(p(h), PcAfter(p, start, h), v)]
  {
    assert (h + [v])[..|h|] == h;
  }

  lemma PerformKeepsPass(p: Instr, m: Machine, start: u32, attempt: nat)
    requires m.idx <= |m.log| && OnePass(p, start, m) && m.pc == PcAfter(p, start, m.log[..m.idx])
    requires !p(m.log[..m.idx]).Done?
    ensures var (m', g) := Perform(m, p(m.log[..m.idx]), attempt);
            && OnePass(p, start, m')
            && m.log <= m'.log
            && (g.Completed? ==> m'.pc == PcAfter(p, start, m'.log[..m'.idx]))
  {
    hide OnPath, Trace, PcAfter;
    var a := p(m.log[..m.idx]);
    var (m', g) := Perform(m, a, attempt);
    if m.idx < |m.log| {
      PassSnoc(p, start, m.log[..m.idx], m.log[m.idx]);
      assert m.log[..m.idx + 1] == m.log[..m.idx] + [m.log[m.idx]];
    } else if g.Completed? {
      assert m.log[..m.idx] == m.log && m'.log[..m'.idx] == m'.log;
      var v := m'.log[|m.log|];
      assert m'.log == m.log + [v];
      OnPathSnoc(p, m.log, v);
      PassSnoc(p, start, m.log, v);
    }
  }

  lemma {:induction false} AttemptKeepsPass(p: Instr, n: nat, m: Machine, start: u32, attempt: nat)
    requires Bounded(p, n) && m.idx <= |m.log|
    requires OnePass(p, start, m) && m.pc == PcAfter(p, start, m.log[..m.idx])
    ensures var (m', e) := Attempt(p, n, m, attempt);
            && OnePass(p, start, m')
            && m.log <= m'.log
            && (e.Finished? ==> p(m'.log) == Done(e.result) && m'.pc == PcAfter(p, start, m'.log))
    decreases n - m.idx
  {
    var a := p(m.log[..m.idx]);
    if a.Done? {
      assert m.idx == |m.log|;
      assert m.log[..m.idx] == m.log;
    } else {
      PerformKeepsPass(p, m, start, attempt);
      var (m', g) := Perform(m, a, attempt);
      if g.Completed? { AttemptKeepsPass(p, n, m', start, attempt); }
    }
  }

  lemma {:induction false} ExecuteKeepsPass(p: Instr, n: nat, m: Machine, start: u32, attempt: nat)
    requires Bounded(p, n) && OnePass(p, start, m)
    ensures var (m', e) := Execute(p, n, m, start, attempt);
            && OnePass(p, start, m')
            && m.log <= m'.log
            && !e.Faulted?
            && (e.Finished? ==> p(m'.log) == Done(e.result) && m'.pc == PcAfter(p, start, m'.log))
    decreases |m.replies|
  {
    AttemptKeepsPass(p, n, Rewind(m, start), start, attempt);
    var (m', e) := Attempt(p, n, Rewind(m, start), attempt);
    if e.Faulted? { ExecuteKeepsPass(p, n, m', start, attempt + 1); }
  }

  /* ---------- Main results ---------- */

  /** For every instruction, every pattern of faults and every bus: over all attempts together the
      bus sees exactly the accesses of one pass, none repeated and none missing; when the
      instruction ends, its result and program counter are those of that pass.  The pass is the one
      that sees the logged values. */
  lemma FaultsLeaveOnePass(p: Instr, n: nat, start: u32, replies: seq<Reply>)
    requires Bounded(p, n)
    ensures var (m, e) := Execute(p, n, Fresh(start, replies), start, 0);
            && OnPath(p, m.log)
            && m.bus == Trace(p, start, m.log)
            && !e.Faulted?
            && (e.Finished? ==> p(m.log) == Done(e.result) && m.pc == PcAfter(p, start, m.log))
  {
    ExecuteKeepsPass(p, n, Fresh(start, replies), start, 0);
  }

  /** With a limit on restarts: unless the CPU is halted the outcome is the unlimited one, and the bus has
      seen one pass, as far as the log reaches, in any case. */
  lemma {:induction false} LimitOnlyHalts(p: Instr, n: nat, m: Machine, start: u32, attempt: nat, retries: nat)
    requires Bounded(p, n) && OnePass(p, start, m)
    ensures var (m', e) := ExecuteFor(p, n, m, start, attempt, retries);
            && OnePass(p, start, m') && m.log <= m'.log
            && (!e.Faulted? ==> (m', e) == Execute(p, n, m, start, attempt))
    decreases retries
  {
    hide Attempt;
    AttemptKeepsPass(p, n, Rewind(m, start), start, attempt);
    var (m', e) := Attempt(p, n, Rewind(m, start), attempt);
    if e.Faulted? && retries > 0 { LimitOnlyHalts(p, n, m', start, attempt + 1, retries - 1); }
  }

  function Faults(replies: seq<Reply>): nat {
    if replies == [] then 0 else Faults(replies[1..]) + if replies[0].Fault? then 1 else 0
  }

  lemma {:induction false} AttemptFaults(p: Instr, n: nat, m: Machine, attempt: nat)
    requires Bounded(p, n) && m.idx <= |m.log|
    ensures var (m', e) := Attempt(p, n, m, attempt);
            Faults(m.replies) == Faults(m'.replies) + if e.Faulted? then 1 else 0
    decreases n - m.idx
  {
    var a := p(m.log[..m.idx]);
    if !a.Done? {
      var (m', g) := Perform(m, a, attempt);
      if g.Completed? { AttemptFaults(p, n, m', attempt); }
    }
  }

  lemma {:induction false} ExecuteFaults(p: Instr, n: nat, m: Machine, start: u32, attempt: nat)
    requires Bounded(p, n)
    ensures Faults(Execute(p, n, m, start, attempt).0.replies) <= Faults(m.replies)
    decreases |m.replies|
  {
    hide Attempt;
    AttemptFaults(p, n, Rewind(m, start), attempt);
    var (m', e) := Attempt(p, n, Rewind(m, start), attempt);
    if e.Faulted? { ExecuteFaults(p, n, m', start, attempt + 1); }
  }

  /** The CPU is halted if and only if the instruction takes more faults than there are restarts. */
  lemma {:induction false} HaltsExactlyWhen(p: Instr, n: nat, m: Machine, start: u32, attempt: nat, retries: nat)
    requires Bounded(p, n)
    ensures ExecuteFor(p, n, m, start, attempt, retries).1.Faulted? <==>
            Faults(m.replies) - Faults(Execute(p, n, m, start, attempt).0.replies) > retries
    decreases retries
  {
    hide Attempt;
    AttemptFaults(p, n, Rewind(m, start), attempt);
    var (m', e) := Attempt(p, n, Rewind(m, start), attempt);
    if e.Faulted? {
      ExecuteFaults(p, n, m', start, attempt + 1);
      if retries > 0 { HaltsExactlyWhen(p, n, m', start, attempt + 1, retries - 1); }
    }
  }

  /** A restart answers what the log holds and arrives where the fault struck. */
  lemma {:induction false} Replay(p: Instr, n: nat, m: Machine, start: u32, attempt: nat)
    requires Bounded(p, n) && OnePass(p, start, m)
    requires m.idx <= |m.log| && m.pc == PcAfter(p, start, m.log[..m.idx])
    ensures Attempt(p, n, m, attempt) ==
            Attempt(p, n, m.(idx := |m.log|, pc := PcAfter(p, start, m.log)), attempt)
    decreases |m.log| - m.idx
  {
    if m.idx == |m.log| {
      assert m.log[..m.idx] == m.log;
    } else {
      PerformKeepsPass(p, m, start, attempt);
      var (m', g) := Perform(m, p(m.log[..m.idx]), attempt);
      Replay(p, n, m', start, attempt);
    }
  }

  /** The replies with the faults left out. */
  function Healed(replies: seq<Reply>): seq<Reply> {
    if replies == [] then []
    else (if replies[0].Fault? then [] else [replies[0]]) + Healed(replies[1..])
  }

  /** Latches that offer the same value in every attempt. */
  ghost predicate Stable(p: Instr) {
    forall h, i, j :: p(h).Latch? ==> p(h).offered(i) == p(h).offered(j)
  }

  function Heal(m: Machine): Machine {
    m.(replies := Healed(m.replies))
  }

  /** An attempt that goes to the bus does what it would do without faults, up to its first fault;
      from there a fault-free continuation does what is left. */
  lemma {:induction false} HealedAttempt(p: Instr, n: nat, m: Machine, start: u32, attempt: nat, other: nat)
    requires Bounded(p, n) && Stable(p) && OnePass(p, start, m)
    requires m.idx == |m.log| && m.pc == PcAfter(p, start, m.log)
    ensures var (m', e) := Attempt(p, n, m, attempt);
            var whole := Attempt(p, n, Heal(m), other);
            if e.Faulted? then
              whole == Attempt(p, n, Heal(m'.(idx := |m'.log|, pc := PcAfter(p, start, m'.log))), other)
            else whole == (Heal(m'), e)
    decreases n - m.idx
  {
    assert m.log[..m.idx] == m.log;
    var a := p(m.log);
    if !a.Done? {
      PerformKeepsPass(p, m, start, attempt);
      var (m', g) := Perform(m, a, attempt);
      if g.Completed? {
        assert m'.log[..m'.idx] == m'.log;
        assert a.Latch? ==> a.offered(attempt) == a.offered(other);
        assert Perform(Heal(m), a, other) == (Heal(m'), g);
        HealedAttempt(p, n, m', start, attempt, other);
      } else if g.Trap? {
        assert Heal(m'.(idx := |m'.log|, pc := PcAfter(p, start, m'.log))) == Heal(m);
      }
    }
  }

  lemma {:induction false} HealedExecute(p: Instr, n: nat, m: Machine, start: u32, attempt: nat, other: nat)
    requires Bounded(p, n) && Stable(p) && OnePass(p, start, m)
    ensures var (m', e) := Execute(p, n, m, start, attempt);
            Attempt(p, n, Heal(m.(idx := |m.log|, pc := PcAfter(p, start, m.log))), other) == (Heal(m'), e)
    decreases |m.replies|
  {
    var r := Rewind(m, start);
    var resumed := r.(idx := |m.log|, pc := PcAfter(p, start, m.log));
    Replay(p, n, r, start, attempt);
    HealedAttempt(p, n, resumed, start, attempt, other);
    AttemptKeepsPass(p, n, r, start, attempt);
    var (m', e) := Attempt(p, n, r, attempt);
    if e.Faulted? { HealedExecute(p, n, m', start, attempt + 1, other); }
  }

  /** Faults are invisible: with every fault removed from the bus's behaviour, a single attempt
      makes the same accesses in the same order, logs the same values, and ends with the same
      result and program counter. */
  lemma FaultsAreInvisible(p: Instr, n: nat, start: u32, replies: seq<Reply>)
    requires Bounded(p, n) && Stable(p)
    ensures var (m, e) := Execute(p, n, Fresh(start, replies), start, 0);
            Attempt(p, n, Fresh(start, Healed(replies)), 0) == (Heal(m), e)
  {
    HealedExecute(p, n, Fresh(start, replies), start, 0, 0);
  }

  /* ---------- The log as it sits in memory ---------- */

  const MAX_MMU030_ACCESS := 9
  const MAX_RETRIES := 50

  /** The globals behind the access macros, with the bus answering from `replies`. */
  class Mmu030 {
    const ad: array<u32>
    var idx: nat
    var idxDone: nat
    var dataBufferOut: u32
    var pc: u32
    var replies: seq<Reply>
    ghost var bus: seq<Access>

    ghost predicate Valid()
      reads this
    {
      ad.Length == MAX_MMU030_ACCESS + 1 && idxDone <= ad.Length
    }

    ghost function Model(): Machine
      requires Valid()
      reads this, ad
    {
      Machine(ad[..idxDone], idx, pc, bus, replies)
    }

    constructor (start: u32, replies: seq<Reply>)
      ensures Valid() && fresh(ad) && Model() == Fresh(start, replies)
    {
      ad := new u32[MAX_MMU030_ACCESS + 1];
      idx, idxDone, dataBufferOut := 0, 0, 0;
      pc := start;
      this.replies := replies;
      bus := [];
    }

    /** What the bus says to an access that reaches it. */
    method AskBus() returns (g: Got, v: u32)
      modifies this`replies
      ensures replies == if old(replies) == [] then [] else old(replies)[1..]
      ensures g == if old(replies) == [] then NoReply else if old(replies)[0].Fault? then Trap else Completed
      ensures g.Completed? ==> v == old(replies)[0].value
    {
      v := 0;
      if replies == [] {
        g := NoReply;
      } else {
        match replies[0] {
          case Fault => g := Trap;
          case Reply(value) => g, v := Completed, value;
        }
        replies := replies[1..];
      }
    }

    /** get_*_mmu030_state and next_i*_mmu030_state. */
    method GetState(a: Action) returns (g: Got, v: u32)
      requires Valid() && (a.Get? || a.Fetch? || a.Peek?) && idx <= idxDone && (idx < idxDone || idxDone < ad.Length)
      modifies this, ad
      ensures Valid() && (Model(), g) == Perform(old(Model()), a, 0)
      ensures g.Completed? ==> v == Model().log[old(idx)]
    {
      if idx < idxDone {
        idx := idx + 1;
        v := ad[idx - 1];
        g := Completed;
        pc := Moved(a, pc);
      } else {
        g, v := GetFromBus(a);
      }
    }

    /** A read that is not in the log. */
    method GetFromBus(a: Action) returns (g: Got, v: u32)
      requires Valid() && (a.Get? || a.Fetch? || a.Peek?) && idx == idxDone < ad.Length
      modifies this, ad
      ensures Valid() && (Model(), g) == Perform(old(Model()), a, 0)
      ensures g.Completed? ==> v == Model().log[old(idx)]
    {
      ghost var before := pc;
      idx := idx + 1;
      assert Model().log == old(Model()).log;
      g, v := AskBus();
      if g.Completed? {
        pc := Moved(a, pc);
        ad[idxDone] := v;
        idxDone := idxDone + 1;
        bus := bus + [AccessOf(a, before, v)];
        assert Model().log == old(Model()).log + [v];
      }
    }

    /** put_*_mmu030_state. */
    method PutState(addr: u32, size: Size, v: u32) returns (g: Got)
      requires Valid() && idx <= idxDone && (idx < idxDone || idxDone < ad.Length)
      modifies this, ad
      ensures Valid() && (Model(), g) == Perform(old(Model()), Put(addr, size, v), 0)
    {
      idx := idx + 1;
      if idx - 1 < idxDone {
        g := Completed;
      } else {
        dataBufferOut := v;
        var ignored: u32;
        g, ignored := AskBus();
        assert Model().log == old(Model()).log;
        if g.Completed? {
          ad[idxDone] := dataBufferOut;
          idxDone := idxDone + 1;
          bus := bus + [Write(addr, size, v)];
          assert Model().log == old(Model()).log + [v];
        }
      }
    }

    method StateStore(offered: u32) returns (v: u32)
      requires Valid() && idx <= idxDone && (idx < idxDone || idxDone < ad.Length)
      modifies this, ad
      ensures Valid() && Model() == Stored(old(Model()), offered)
      ensures v == Model().log[old(idx)]
    {
      v := offered;
      idx := idx + 1;
      if idx - 1 < idxDone {
        v := ad[idx - 1];
      } else {
        ad[idxDone] := v;
        idxDone := idxDone + 1;
      }
    }

    /** The access the instruction asks for. */
    method PerformAction(a: Action, attempt: nat) returns (g: Got)
      requires Valid() && !a.Done? && idx <= idxDone && (idx < idxDone || idxDone < ad.Length)
      modifies this, ad
      ensures Valid() && (Model(), g) == Perform(old(Model()), a, attempt)
    {
      if a.Latch? {
        var v := StateStore(a.offered(attempt));
        g := Completed;
      } else if a.Put? {
        g := PutState(a.addr, a.size, a.value);
      } else {
        var v: u32;
        g, v := GetState(a);
      }
    }

    /** One run over the instruction. */
    method RunOnce(p: Instr, ghost n: nat, attempt: nat) returns (e: Ended)
      requires Valid() && Bounded(p, n) && n <= MAX_MMU030_ACCESS + 1 && idx <= idxDone
      modifies this, ad
      ensures Valid() && (Model(), e) == Attempt(p, n, old(Model()), attempt)
    {
      hide Perform;
      var a := p(ad[..idx]);
      assert Model().log[..idx] == ad[..idx];
      while !a.Done?
        invariant Valid() && idx <= idxDone
        invariant a == p(Model().log[..idx])
        invariant Attempt(p, n, Model(), attempt) == Attempt(p, n, old(Model()), attempt)
        decreases n - idx
      {
        var g := PerformAction(a, attempt);
        if g.Trap? { return Faulted; }
        if g.NoReply? { return Starved; }
        assert Model().log[..idx] == ad[..idx];
        a := p(ad[..idx]);
      }
      e := Finished(a.result);
    }

    /** The instruction with the restarts its faults cause; the CPU is halted if the last allowed one
        faults as well. */
    method Run(p: Instr, ghost n: nat, start: u32) returns (e: Ended)
      requires Valid() && Bounded(p, n) && n <= MAX_MMU030_ACCESS + 1
      requires Model() == Fresh(start, replies)
      modifies this, ad
      ensures Valid() && (Model(), e) == ExecuteFor(p, n, old(Model()), start, 0, MAX_RETRIES)
      ensures OnePass(p, start, Model())
      ensures !e.Faulted? ==> (Model(), e) == Execute(p, n, old(Model()), start, 0)
      ensures e.Faulted? <==> Faults(old(replies)) - Faults(Execute(p, n, old(Model()), start, 0).0.replies) > 50
    {
      hide Attempt;
      ghost var m0 := Model();
      LimitOnlyHalts(p, n, m0, start, 0, MAX_RETRIES);
      HaltsExactlyWhen(p, n, m0, start, 0, MAX_RETRIES);
      var attempt, cnt := 0, MAX_RETRIES;
      while true
        invariant Valid() && 0 <= cnt <= MAX_RETRIES
        invariant ExecuteFor(p, n, Model(), start, attempt, cnt) == ExecuteFor(p, n, m0, start, 0, MAX_RETRIES)
        decreases cnt
      {
        idx := 0;
        pc := start;
        e := RunOnce(p, n, attempt);
        attempt := attempt + 1;
        cnt := cnt - 1;
        if !e.Faulted? || cnt < 0 { return; }
      }
    }
  }
}
