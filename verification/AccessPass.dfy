/** The pass that restarts leave on the bus of a 68030 (include/cpummu030.h), access by access: at which address and
    of which size each one is, and which reply answers it. */
module AccessPass {
  import opened AccessLog

  /* ---------- Where the accesses are ---------- */

  /** The fetches of one size among the actions that saw `h`. */
  function Fetches(p: Instr, h: seq<u32>, long: bool): nat {
    if h == [] then 0
    else
      var before := h[..|h| - 1];
      Fetches(p, before, long) + if p(before) == Fetch(long) then 1 else 0
  }

  /** The actions that saw `h` and went to the bus. */
  function OnBus(p: Instr, h: seq<u32>): nat {
    if h == [] then 0
    else
      var before := h[..|h| - 1];
      OnBus(p, before) + if p(before).Done? || p(before).Latch? then 0 else 1
  }

  /** Two bytes for each fetched word and four for each long word, from `start` on. */
  function FetchedTo(p: Instr, start: u32, h: seq<u32>): u32 {
    (start + 2 * Fetches(p, h, false) + 4 * Fetches(p, h, true)) % 0x1_0000_0000
  }

  /** The access of the action that saw `h`, answered with `v`. */
  ghost predicate Made(p: Instr, start: u32, h: seq<u32>, v: u32, access: Access) {
    match p(h)
    case Get(addr, size) => access == Read(addr, size, v)
    case Put(addr, size, value) => access == Write(addr, size, value)
    case Fetch(long) => access == Read(FetchedTo(p, start, h), if long then Long else Word, v)
    case Peek(offset, long) =>
      access == Read((FetchedTo(p, start, h) + offset) % 0x1_0000_0000, if long then Long else Word, v)
    case Latch(_) => true
    case Done(_) => false
  }

  /** `bus` holds one access for each action that went there, in their order. */
  ghost predicate MadeAll(p: Instr, start: u32, h: seq<u32>, bus: seq<Access>) {
    && |bus| == OnBus(p, h)
    && forall k :: 0 <= k < |h| && !p(h[..k]).Latch? ==>
         OnBus(p, h[..k]) < |bus| && Made(p, start, h[..k], h[k], bus[OnBus(p, h[..k])])
  }

  lemma Snoc(p: Instr, h: seq<u32>, v: u32, long: bool)
    ensures Fetches(p, h + [v], long) == Fetches(p, h, long) + if p(h) == Fetch(long) then 1 else 0
    ensures OnBus(p, h + [v]) == OnBus(p, h) + if p(h).Done? || p(h).Latch? then 0 else 1
  {
    assert (h + [v])[..|h|] == h;
  }

  lemma PcStep(pc: int, size: int, a: int)
    requires a == pc % 0x1_0000_0000
    ensures Plus(a, size) == (pc + size) % 0x1_0000_0000
  {
  }

  lemma {:induction false} PcIsFetchedTo(p: Instr, start: u32, h: seq<u32>)
    requires 0 <= start < 0x1_0000_0000
    ensures PcAfter(p, start, h) == FetchedTo(p, start, h)
  {
    if h != [] {
      var before := h[..|h| - 1];
      PcIsFetchedTo(p, start, before);
      PcStep(start + 2 * Fetches(p, before, false) + 4 * Fetches(p, before, true), 2, PcAfter(p, start, before));
      PcStep(start + 2 * Fetches(p, before, false) + 4 * Fetches(p, before, true), 4, PcAfter(p, start, before));
    }
  }

  lemma {:induction false} TraceIsMade(p: Instr, start: u32, h: seq<u32>)
    requires OnPath(p, h) && 0 <= start < 0x1_0000_0000
    ensures MadeAll(p, start, h, Trace(p, start, h))
  {
    hide FetchedTo;
    if h != [] {
      var before, n := h[..|h| - 1], |h| - 1;
      forall k | 0 <= k < n ensures before[..k] == h[..k] && before[k] == h[k] {}
      assert OnPath(p, before);
      TraceIsMade(p, start, before);
      PcIsFetchedTo(p, start, before);
      assert h[..n] == before;
      var bus, rest := Trace(p, start, h), Trace(p, start, before);
      assert rest <= bus;
      forall k | 0 <= k < |h| && !p(h[..k]).Latch?
        ensures OnBus(p, h[..k]) < |bus| && Made(p, start, h[..k], h[k], bus[OnBus(p, h[..k])])
      {
        if k < n {
          assert Made(p, start, before[..k], before[k], rest[OnBus(p, before[..k])]);
        }
      }
    }
  }

  /* ---------- What answers them ---------- */

  /** Access number `j` that reaches the bus is answered by its reply number `j`, faults left out; a latch keeps a
      value offered in some attempt.  `all` is what the bus answers from the start, without its faults. */
  ghost predicate Answered(p: Instr, all: seq<Reply>, m: Machine) {
    && OnBus(p, m.log) <= |all| && Healed(m.replies) == all[OnBus(p, m.log)..]
    && forall k :: 0 <= k < |m.log| ==> AnsweredAt(p, all, m.log, k)
  }

  ghost predicate AnsweredAt(p: Instr, all: seq<Reply>, h: seq<u32>, k: nat)
    requires k < |h|
  {
    var a, j := p(h[..k]), OnBus(p, h[..k]);
    match a
    case Done(_) => false
    case Put(_, _, value) => h[k] == value
    case Latch(offered) => exists attempt :: h[k] == offered(attempt)
    case Get(_, _) => j < |all| && all[j] == Reply(h[k])
    case Fetch(_) => j < |all| && all[j] == Reply(h[k])
    case Peek(_, _) => j < |all| && all[j] == Reply(h[k])
  }

  lemma AnsweredOn(p: Instr, all: seq<Reply>, m: Machine, n: Machine, v: u32)
    requires Answered(p, all, m) && n.log == m.log + [v]
    requires OnBus(p, n.log) <= |all| && Healed(n.replies) == all[OnBus(p, n.log)..]
    requires AnsweredAt(p, all, n.log, |m.log|)
    ensures Answered(p, all, n)
  {
    forall k | 0 <= k < |n.log| ensures AnsweredAt(p, all, n.log, k) {
      if k < |m.log| {
        assert n.log[..k] == m.log[..k];
        assert AnsweredAt(p, all, m.log, k);
      }
    }
  }

  lemma PerformAnswers(p: Instr, all: seq<Reply>, m: Machine, attempt: nat)
    requires m.idx <= |m.log| && Answered(p, all, m) && !p(m.log[..m.idx]).Done?
    ensures Answered(p, all, Perform(m, p(m.log[..m.idx]), attempt).0)
  {
    hide Answered, AnsweredAt, OnBus, Fetches;
    var a := p(m.log[..m.idx]);
    var (n, g) := Perform(m, a, attempt);
    if m.idx < |m.log| || !g.Completed? {
      Unlogged(p, all, m, n);
    } else {
      assert m.log[..m.idx] == m.log;
      var v := n.log[|m.log|];
      assert n.log == m.log + [v];
      Snoc(p, m.log, v, false);
      NextReply(p, all, m);
      if !a.Latch? { assert all[OnBus(p, m.log)] == m.replies[0]; }
      EntryAnswered(p, all, m.log, v, attempt);
      AnsweredOn(p, all, m, n, v);
    }
  }

  /** A machine with the same log that has at most taken a fault. */
  lemma Unlogged(p: Instr, all: seq<Reply>, m: Machine, n: Machine)
    requires Answered(p, all, m)
    requires n.replies == m.replies || (m.replies != [] && m.replies[0].Fault? && n.replies == m.replies[1..])
    ensures n.log == m.log ==> Answered(p, all, n)
  {
    if n.log == m.log {
      forall k | 0 <= k < |n.log| ensures AnsweredAt(p, all, n.log, k) {}
    }
  }

  lemma NextReply(p: Instr, all: seq<Reply>, m: Machine)
    requires Answered(p, all, m)
    ensures OnBus(p, m.log) <= |all| && Healed(m.replies) == all[OnBus(p, m.log)..]
    ensures m.replies != [] && m.replies[0].Reply? ==>
              OnBus(p, m.log) < |all| && all[OnBus(p, m.log)] == m.replies[0] &&
              Healed(m.replies[1..]) == all[OnBus(p, m.log) + 1..]
  {
    if m.replies != [] && m.replies[0].Reply? {
      var s := all[OnBus(p, m.log)..];
      assert s == [m.replies[0]] + Healed(m.replies[1..]);
      assert s[1..] == Healed(m.replies[1..]) == all[OnBus(p, m.log) + 1..];
    }
  }

  lemma EntryAnswered(p: Instr, all: seq<Reply>, h: seq<u32>, v: u32, attempt: nat)
    requires !p(h).Done?
    requires p(h).Latch? ==> v == p(h).offered(attempt)
    requires p(h).Put? ==> v == p(h).value
    requires !p(h).Latch? && !p(h).Put? ==> OnBus(p, h) < |all| && all[OnBus(p, h)] == Reply(v)
    ensures AnsweredAt(p, all, h + [v], |h|)
  {
    assert (h + [v])[..|h|] == h;
  }

  lemma {:induction false} AttemptAnswers(p: Instr, all: seq<Reply>, n: nat, m: Machine, attempt: nat)
    requires Bounded(p, n) && m.idx <= |m.log| && Answered(p, all, m)
    ensures var (m', e) := Attempt(p, n, m, attempt);
            Answered(p, all, m') && (e.Starved? ==> m'.replies == [])
    decreases n - m.idx
  {
    hide Answered;
    var a := p(m.log[..m.idx]);
    if !a.Done? {
      PerformAnswers(p, all, m, attempt);
      var (m', g) := Perform(m, a, attempt);
      if g.Completed? { AttemptAnswers(p, all, n, m', attempt); }
    }
  }

  lemma {:induction false} ExecuteAnswers(p: Instr, all: seq<Reply>, n: nat, m: Machine, start: u32, attempt: nat)
    requires Bounded(p, n) && Answered(p, all, m)
    ensures var (m', e) := Execute(p, n, m, start, attempt);
            Answered(p, all, m') && (e.Starved? ==> m'.replies == [])
    decreases |m.replies|
  {
    hide Attempt, AnsweredAt;
    assert Answered(p, all, Rewind(m, start));
    AttemptAnswers(p, all, n, Rewind(m, start), attempt);
    var (m', e) := Attempt(p, n, Rewind(m, start), attempt);
    if e.Faulted? { ExecuteAnswers(p, all, n, m', start, attempt + 1); }
  }

  /* ---------- Main results ---------- */

  /** For every instruction, every pattern of faults and every bus: the accesses that the bus sees, one for each
      action that goes there, are at the address and of the size that the action asks for; fetches and peeks
      count from the bytes fetched so far, and at the end the program counter stands behind them.  The values are
      the bus's replies in order, faults left out; the instruction ends unless these run out. */
  lemma AccessesAreMade(p: Instr, n: nat, start: u32, replies: seq<Reply>)
    requires Bounded(p, n) && 0 <= start < 0x1_0000_0000
    ensures var (m, e) := Execute(p, n, Fresh(start, replies), start, 0);
            && MadeAll(p, start, m.log, m.bus)
            && (e.Finished? ==> p(m.log) == Done(e.result) && m.pc == FetchedTo(p, start, m.log))
            && (forall k :: 0 <= k < |m.log| ==> AnsweredAt(p, Healed(replies), m.log, k))
            && (!e.Finished? ==> |m.bus| == |Healed(replies)|)
  {
    hide Execute, MadeAll, AnsweredAt;
    FaultsLeaveOnePass(p, n, start, replies);
    var (m, e) := Execute(p, n, Fresh(start, replies), start, 0);
    TraceIsMade(p, start, m.log);
    PcIsFetchedTo(p, start, m.log);
    FreshAnswered(p, start, replies);
    ExecuteAnswers(p, Healed(replies), n, Fresh(start, replies), start, 0);
    BusIs(p, start, m.log, m.bus);
  }

  lemma FreshAnswered(p: Instr, start: u32, replies: seq<Reply>)
    ensures Answered(p, Healed(replies), Fresh(start, replies))
  {
  }

  lemma BusIs(p: Instr, start: u32, h: seq<u32>, bus: seq<Access>)
    requires MadeAll(p, start, h, bus)
    ensures |bus| == OnBus(p, h)
  {
  }

  /** The instruction stream is read without a gap: the first fetch is at `start`, and a fetch begins where the
      one before it ended. */
  lemma FetchesAreContiguous(p: Instr, start: u32, h: seq<u32>, bus: seq<Access>, i: nat, j: nat)
    requires MadeAll(p, start, h, bus) && i < j < |h| && p(h[..i]).Fetch? && p(h[..j]).Fetch?
    requires forall k :: i < k < j ==> !p(h[..k]).Fetch?
    ensures OnBus(p, h[..i]) < OnBus(p, h[..j]) < |bus|
    ensures bus[OnBus(p, h[..j])].addr ==
            (bus[OnBus(p, h[..i])].addr + if p(h[..i]).long then 4 else 2) % 0x1_0000_0000
    ensures (forall k :: 0 <= k < i ==> !p(h[..k]).Fetch?) && 0 <= start < 0x1_0000_0000 ==>
              bus[OnBus(p, h[..i])].addr == start
  {
    hide Fetches, OnBus;
    assert h[..i + 1] == h[..i] + [h[i]];
    Snoc(p, h[..i], h[i], false);
    Snoc(p, h[..i], h[i], true);
    NoneBetween(p, h, i + 1, j);
    if forall k :: 0 <= k < i ==> !p(h[..k]).Fetch? {
      NoneBetween(p, h, 0, i);
      NoFetches(p, h[..0]);
    }
    FurtherOn(p, h, i + 1, j);
    assert Made(p, start, h[..i], h[i], bus[OnBus(p, h[..i])]);
    assert Made(p, start, h[..j], h[j], bus[OnBus(p, h[..j])]);
    PcStep(start + 2 * Fetches(p, h[..i], false) + 4 * Fetches(p, h[..i], true), if p(h[..i]).long then 4 else 2,
           FetchedTo(p, start, h[..i]));
  }

  lemma NoFetches(p: Instr, h: seq<u32>)
    requires h == []
    ensures Fetches(p, h, false) == Fetches(p, h, true) == 0
  {
  }

  lemma {:induction false} NoneBetween(p: Instr, h: seq<u32>, i: nat, j: nat)
    requires i <= j <= |h| && forall k :: i <= k < j ==> !p(h[..k]).Fetch?
    ensures Fetches(p, h[..j], false) == Fetches(p, h[..i], false)
    ensures Fetches(p, h[..j], true) == Fetches(p, h[..i], true)
    decreases j - i
  {
    if i < j {
      NoneBetween(p, h, i, j - 1);
      assert h[..j] == h[..j - 1] + [h[j - 1]];
      Snoc(p, h[..j - 1], h[j - 1], false);
      Snoc(p, h[..j - 1], h[j - 1], true);
    }
  }

  lemma {:induction false} FurtherOn(p: Instr, h: seq<u32>, i: nat, j: nat)
    requires i <= j <= |h|
    ensures OnBus(p, h[..i]) <= OnBus(p, h[..j])
    decreases j - i
  {
    if i < j {
      FurtherOn(p, h, i, j - 1);
      assert h[..j] == h[..j - 1] + [h[j - 1]];
      Snoc(p, h[..j - 1], h[j - 1], false);
    }
  }
}
