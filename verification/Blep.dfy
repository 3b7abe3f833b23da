/** The band-limited step queue of one Paula channel (src/core/audio.cpp).

    Each change of a channel's output is pushed on a ring of 256 entries.  When a sample is due, the
    ring is scanned from the newest entry until one is too old.  The ring stands for the whole
    history of changes, which has no bound. */
module Blep {
  import opened Arith
  import opened Words

  const SINC_QUEUE_MAX_AGE := 2048
  const SINC_QUEUE_LENGTH := 256

  datatype Entry = Entry(time: int, output: int)

  /** sinc_queue, sinc_queue_head, sinc_queue_time and sinc_output_state. */
  datatype Queue = Queue(slots: seq<Entry>, head: int, time: int, state: int)

  predicate ValidQueue(q: Queue) {
    |q.slots| == SINC_QUEUE_LENGTH && 0 <= q.head < SINC_QUEUE_LENGTH
  }

  function Empty(): Queue {
    Queue(seq(SINC_QUEUE_LENGTH, i => Entry(0, 0)), 0, 0, 0)
  }

  function Slot(q: Queue, i: int): Entry
    requires ValidQueue(q)
  {
    q.slots[(q.head + i) % SINC_QUEUE_LENGTH]
  }

  function Push(q: Queue, output: int): (r: Queue)
    requires ValidQueue(q)
    ensures ValidQueue(r)
  {
    var head := (q.head - 1) % SINC_QUEUE_LENGTH;
    q.(head := head, slots := q.slots[head := Entry(q.time, output - q.state)], state := output)
  }

  /** The channel's part of sinc_prehandler_paula: record a change, then let time pass. */
  function Prehandler(q: Queue, output: int, best: nat): (r: Queue)
    requires ValidQueue(q)
    ensures ValidQueue(r)
  {
    var p := if q.state == output then q else Push(q, output);
    p.(time := S32(p.time + best))
  }

  /** The scan of samplexx_sinc_handler from its `j`-th entry on. */
  function Scan(q: Queue, winsinc: seq<int>, j: nat): int
    requires ValidQueue(q) && |winsinc| == SINC_QUEUE_MAX_AGE && j <= SINC_QUEUE_LENGTH
    decreases SINC_QUEUE_LENGTH - j
  {
    if j == SINC_QUEUE_LENGTH then 0
    else
      var e := Slot(q, j);
      var age := S32(q.time - e.time);
      if age >= SINC_QUEUE_MAX_AGE || age < 0 then 0
      else winsinc[age] * e.output + Scan(q, winsinc, j + 1)
  }

  lemma ScanUnfold(q: Queue, winsinc: seq<int>, j: nat)
    requires ValidQueue(q) && |winsinc| == SINC_QUEUE_MAX_AGE && j < SINC_QUEUE_LENGTH
    ensures var e := q.slots[(q.head + j) % SINC_QUEUE_LENGTH];
            var age := S32(q.time - e.time);
            Scan(q, winsinc, j) == if age >= SINC_QUEUE_MAX_AGE || age < 0 then 0
                                   else winsinc[age] * e.output + Scan(q, winsinc, j + 1)
    ensures Scan(q, winsinc, SINC_QUEUE_LENGTH) == 0
  {
  }

  /** The 16-bit value nearest to `v`. */
  function Clamp16(v: int): (r: int)
    ensures -0x8000 <= r < 0x8000 && (r == v || (v > r && r == 0x7FFF) || (v < r && r == -0x8000))
  {
    if v > 32767 then 32767 else if v < -32768 then -32768 else v
  }

  /** The sample: the output level with the ringing of recent steps cancelled.  `>> 15` floors. */
  function Sample(q: Queue, winsinc: seq<int>): int
    requires ValidQueue(q) && |winsinc| == SINC_QUEUE_MAX_AGE
  {
    Clamp16((q.state * 0x20000 - Scan(q, winsinc, 0)) / 0x8000)
  }

  /* ---------- The unbounded history ---------- */

  /** A change of the output at a time that never wraps. */
  datatype Change = Change(at: int, delta: int)

  /** Every change ever made, oldest first; the time now; the level now. */
  datatype History = History(changes: seq<Change>, now: int, level: int)

  datatype Call = Call(output: int, best: nat)

  function Changed(h: History, output: int): History {
    h.(changes := h.changes + [Change(h.now, output - h.level)], level := output)
  }

  function Record(h: History, c: Call): History {
    var g := if h.level == c.output then h else Changed(h, c.output);
    g.(now := g.now + c.best)
  }

  function Recorded(calls: seq<Call>): History {
    if calls == [] then History([], 0, 0)
    else Record(Recorded(calls[..|calls| - 1]), calls[|calls| - 1])
  }

  function Queued(calls: seq<Call>): (q: Queue)
    ensures ValidQueue(q)
  {
    if calls == [] then Empty()
    else Prehandler(Queued(calls[..|calls| - 1]), calls[|calls| - 1].output, calls[|calls| - 1].best)
  }

  /** The sum over all changes younger than the limit, with no ring and no early stop. */
  function FullSum(changes: seq<Change>, now: int, winsinc: seq<int>): int
    requires |winsinc| == SINC_QUEUE_MAX_AGE
  {
    if changes == [] then 0
    else
      var c := changes[|changes| - 1];
      var rest := FullSum(changes[..|changes| - 1], now, winsinc);
      if 0 <= now - c.at < 2048 then winsinc[now - c.at] * c.delta + rest else rest
  }

  function Total(changes: seq<Change>): int {
    if changes == [] then 0 else Total(changes[..|changes| - 1]) + changes[|changes| - 1].delta
  }

  /** How many changes, counted from the newest, are younger than the limit. */
  function Young(changes: seq<Change>, now: int): nat {
    if changes == [] || now - changes[|changes| - 1].at >= 2048 then 0
    else 1 + Young(changes[..|changes| - 1], now)
  }

  ghost predicate Spaced(changes: seq<Change>) {
    forall i :: 0 <= i < |changes| - 1 ==> changes[i + 1].at - changes[i].at >= 8
  }

  /** The `i`-th newest change. */
  function Newest(changes: seq<Change>, i: nat): Change
    requires i < |changes|
  {
    changes[|changes| - 1 - i]
  }

  /** The newest change that is too old looks young again because 32-bit time has wrapped. */
  predicate Aliased(h: History) {
    var k := Young(h.changes, h.now);
    k < |h.changes| && k < 256 && LooksYoung(h, k)
  }

  /** The age of a change, as 32 bits tell it, is in range. */
  predicate LooksYoung(h: History, k: nat)
    requires k < |h.changes|
  {
    (h.now - Newest(h.changes, k).at) % TWO_32 < 2048
  }

  /** The ring holds the newest 256 changes, newest at the head, and untouched entries behind. */
  ghost predicate Mirrors(q: Queue, h: History) {
    && ValidQueue(q)
    && q.time == S32(h.now)
    && q.state == h.level
    && (forall i :: 0 <= i < SINC_QUEUE_LENGTH ==>
          Slot(q, i) == if i < |h.changes| then Entry(S32(Newest(h.changes, i).at), Newest(h.changes, i).delta)
                        else Entry(0, 0))
  }

  ghost predicate InOrder(h: History) {
    && (forall i :: 0 <= i < |h.changes| ==> h.changes[i].at <= h.now && h.changes[i].delta != 0)
    && (forall i, j :: 0 <= i < j < |h.changes| ==> h.changes[i].at <= h.changes[j].at)
  }

  lemma PushShifts(q: Queue, e: Entry, i: nat)
    requires ValidQueue(q) && i < SINC_QUEUE_LENGTH
    ensures var head := (q.head - 1) % SINC_QUEUE_LENGTH;
            var r := q.(head := head, slots := q.slots[head := e]);
            Slot(r, i) == if i == 0 then e else Slot(q, i - 1)
  {
    ModAdd(q.head - 1, i, SINC_QUEUE_LENGTH);
    if i > 0 { SlotsDiffer(q.head - 1, q.head - 1 + i, SINC_QUEUE_LENGTH); }
  }

  lemma PushMirrors(q: Queue, h: History, output: int)
    requires Mirrors(q, h) && q.state != output
    ensures Mirrors(Push(q, output), Changed(h, output))
  {
    var r, g := Push(q, output), Changed(h, output);
    forall i | 0 <= i < SINC_QUEUE_LENGTH
      ensures Slot(r, i) == if i < |g.changes| then Entry(S32(Newest(g.changes, i).at), Newest(g.changes, i).delta)
                            else Entry(0, 0)
    {
      PushShifts(q, Entry(q.time, output - q.state), i);
      if 0 < i < |g.changes| { assert Newest(g.changes, i) == Newest(h.changes, i - 1); }
    }
  }

  lemma ChangedInOrder(h: History, output: int)
    requires InOrder(h) && h.level != output
    ensures InOrder(Changed(h, output))
  {
  }

  lemma TimePasses(q: Queue, h: History, best: nat)
    requires Mirrors(q, h) && InOrder(h)
    ensures Mirrors(q.(time := S32(q.time + best)), h.(now := h.now + best)) && InOrder(h.(now := h.now + best))
  {
    hide S32;
    S32Add(h.now, best);
    var r := q.(time := S32(q.time + best));
    assert forall i :: 0 <= i < SINC_QUEUE_LENGTH ==> Slot(r, i) == Slot(q, i);
  }

  lemma RecordMirrors(q: Queue, h: History, c: Call)
    requires Mirrors(q, h) && InOrder(h)
    ensures Mirrors(Prehandler(q, c.output, c.best), Record(h, c)) && InOrder(Record(h, c))
  {
    SameLevel(q, h);
    hide Mirrors, InOrder, Push, Changed, S32;
    if q.state == c.output {
      TimePasses(q, h, c.best);
    } else {
      PushMirrors(q, h, c.output);
      ChangedInOrder(h, c.output);
      TimePasses(Push(q, c.output), Changed(h, c.output), c.best);
    }
  }

  lemma SameLevel(q: Queue, h: History)
    requires Mirrors(q, h)
    ensures q.state == h.level && ValidQueue(q)
  {
  }

  lemma {:induction false} RunMirrors(calls: seq<Call>)
    ensures Mirrors(Queued(calls), Recorded(calls)) && InOrder(Recorded(calls))
  {
    if calls != [] {
      RunMirrors(calls[..|calls| - 1]);
      RecordMirrors(Queued(calls[..|calls| - 1]), Recorded(calls[..|calls| - 1]), calls[|calls| - 1]);
    }
  }

  /* ---------- The scan against the history ---------- */

  lemma {:induction false} YoungIs(changes: seq<Change>, now: int)
    ensures var k := Young(changes, now);
            && k <= |changes|
            && (forall i :: 0 <= i < k ==> now - Newest(changes, i).at < SINC_QUEUE_MAX_AGE)
            && (k < |changes| ==> now - Newest(changes, k).at >= SINC_QUEUE_MAX_AGE)
  {
    if changes != [] && now - changes[|changes| - 1].at < SINC_QUEUE_MAX_AGE {
      var init := changes[..|changes| - 1];
      YoungIs(init, now);
      forall i | 0 <= i < Young(changes, now) ensures now - Newest(changes, i).at < SINC_QUEUE_MAX_AGE {
        if i > 0 { assert Newest(changes, i) == Newest(init, i - 1); }
      }
      if Young(init, now) < |init| { assert Newest(changes, Young(init, now) + 1) == Newest(init, Young(init, now)); }
    }
  }

  lemma YoungIsYoung(changes: seq<Change>, now: int, j: nat)
    ensures Young(changes, now) <= |changes|
    ensures j < Young(changes, now) ==> now - Newest(changes, j).at < SINC_QUEUE_MAX_AGE
  {
    YoungIs(changes, now);
  }

  /** Changes 8 apart: the `i`-th newest is at least 8 * i older than the newest. */
  lemma {:induction false} SpacedAges(changes: seq<Change>, i: nat)
    requires Spaced(changes) && i < |changes|
    ensures Newest(changes, 0).at - Newest(changes, i).at >= 8 * i
  {
    if i > 0 {
      SpacedAges(changes, i - 1);
      assert changes[|changes| - 1 - i + 1].at - changes[|changes| - 1 - i].at >= 8;
    }
  }

  /** This is what the queue length of 256 is for. */
  lemma YoungFit(h: History)
    requires InOrder(h) && Spaced(h.changes)
    ensures Young(h.changes, h.now) <= SINC_QUEUE_LENGTH
  {
    YoungIs(h.changes, h.now);
    if Young(h.changes, h.now) > SINC_QUEUE_LENGTH {
      SpacedAges(h.changes, SINC_QUEUE_LENGTH);
    }
  }

  lemma {:induction false} OldSumIsZero(h: History, winsinc: seq<int>, n: nat)
    requires |winsinc| == SINC_QUEUE_MAX_AGE && InOrder(h) && n <= |h.changes|
    requires n > 0 ==> h.now - h.changes[n - 1].at >= SINC_QUEUE_MAX_AGE
    ensures FullSum(h.changes[..n], h.now, winsinc) == 0
  {
    if n > 0 {
      assert h.changes[..n][..n - 1] == h.changes[..n - 1];
      if n > 1 { assert h.changes[n - 2].at <= h.changes[n - 1].at; }
      OldSumIsZero(h, winsinc, n - 1);
    }
  }

  lemma {:induction false} EmptyEntriesAddNothing(q: Queue, h: History, winsinc: seq<int>, j: nat)
    requires |winsinc| == SINC_QUEUE_MAX_AGE && Mirrors(q, h) && |h.changes| <= j <= SINC_QUEUE_LENGTH
    ensures Scan(q, winsinc, j) == 0 && Visited(q, j) == 0
    decreases SINC_QUEUE_LENGTH - j
  {
    if j < SINC_QUEUE_LENGTH { EmptyEntriesAddNothing(q, h, winsinc, j + 1); }
  }

  /** How many recorded changes the scan adds from its `j`-th entry on (unused entries are 0). */
  function Visited(q: Queue, j: nat): nat
    requires ValidQueue(q) && j <= SINC_QUEUE_LENGTH
    decreases SINC_QUEUE_LENGTH - j
  {
    if j == SINC_QUEUE_LENGTH then 0
    else
      var age := S32(q.time - Slot(q, j).time);
      if age >= SINC_QUEUE_MAX_AGE || age < 0 then 0
      else (if Slot(q, j).output == 0 then 0 else 1) + Visited(q, j + 1)
  }

  /** A 32-bit age is in range exactly when the true age is in range modulo 2^32. */
  lemma WrappedAge(q: Queue, h: History, i: nat)
    requires Mirrors(q, h) && InOrder(h) && i < |h.changes| && i < SINC_QUEUE_LENGTH
    ensures var age := S32(q.time - Slot(q, i).time);
            var trueAge := h.now - Newest(h.changes, i).at;
            && (0 <= age < SINC_QUEUE_MAX_AGE <==> trueAge % TWO_32 < SINC_QUEUE_MAX_AGE)
            && (trueAge < SINC_QUEUE_MAX_AGE ==> age == trueAge)
  {
    var trueAge := h.now - Newest(h.changes, i).at;
    S32Sub(h.now, Newest(h.changes, i).at);
    ModAdd(trueAge, TWO_31, TWO_32);
    if trueAge % TWO_32 < TWO_31 { S32Small(trueAge % TWO_32); }
  }

  /** The history without its `j` newest changes. */
  function Older(h: History, j: nat): seq<Change>
    requires j <= |h.changes|
  {
    h.changes[..|h.changes| - j]
  }

  /** What the `j`-th newest change adds to a sum, while it is young. */
  function Term(h: History, winsinc: seq<int>, j: nat): int
    requires |winsinc| == SINC_QUEUE_MAX_AGE && j < |h.changes|
    requires 0 <= h.now - Newest(h.changes, j).at < SINC_QUEUE_MAX_AGE
  {
    winsinc[h.now - Newest(h.changes, j).at] * Newest(h.changes, j).delta
  }

  lemma SumStep(h: History, winsinc: seq<int>, j: nat)
    requires |winsinc| == SINC_QUEUE_MAX_AGE && j < |h.changes|
    requires 0 <= h.now - Newest(h.changes, j).at < SINC_QUEUE_MAX_AGE
    ensures FullSum(Older(h, j), h.now, winsinc) == Term(h, winsinc, j) + FullSum(Older(h, j + 1), h.now, winsinc)
  {
    var n := |h.changes| - j;
    assert h.changes[..n][..n - 1] == h.changes[..n - 1];
  }

  lemma ScanStep(q: Queue, h: History, winsinc: seq<int>, j: nat)
    requires |winsinc| == SINC_QUEUE_MAX_AGE && Mirrors(q, h) && InOrder(h) && j < |h.changes| && j < SINC_QUEUE_LENGTH
    requires 0 <= h.now - Newest(h.changes, j).at < SINC_QUEUE_MAX_AGE
    ensures ValidQueue(q) && Visited(q, j) == 1 + Visited(q, j + 1)
    ensures Scan(q, winsinc, j) == Term(h, winsinc, j) + Scan(q, winsinc, j + 1)
  {
    hide S32;
    WrappedAge(q, h, j);
    assert Newest(h.changes, j).delta != 0;
  }

  /** A young change enters both sums with the same term. */
  lemma YoungStep(q: Queue, h: History, winsinc: seq<int>, j: nat)
    requires |winsinc| == SINC_QUEUE_MAX_AGE && Mirrors(q, h) && InOrder(h)
    requires j < |h.changes| && j < SINC_QUEUE_LENGTH && h.now - Newest(h.changes, j).at < SINC_QUEUE_MAX_AGE
    ensures Visited(q, j) == 1 + Visited(q, j + 1)
    ensures Scan(q, winsinc, j) - Scan(q, winsinc, j + 1) ==
            FullSum(Older(h, j), h.now, winsinc) - FullSum(Older(h, j + 1), h.now, winsinc)
  {
    assert h.changes[|h.changes| - 1 - j].at <= h.now;
    hide Scan, Visited, FullSum, Older, Term, Mirrors, InOrder;
    SumStep(h, winsinc, j);
    ScanStep(q, h, winsinc, j);
  }

  /** From the `j`-th entry on the scan adds the young changes, or more if one is aliased. */
  ghost predicate Agreement(q: Queue, h: History, winsinc: seq<int>, j: nat)
    requires ValidQueue(q) && |winsinc| == SINC_QUEUE_MAX_AGE && j <= SINC_QUEUE_LENGTH && j <= |h.changes|
  {
    var k := Young(h.changes, h.now);
    if Aliased(h) then Visited(q, j) > k - j
    else Visited(q, j) == k - j && Scan(q, winsinc, j) == FullSum(Older(h, j), h.now, winsinc)
  }

  lemma AgreementStep(q: Queue, h: History, winsinc: seq<int>, j: nat)
    requires |winsinc| == SINC_QUEUE_MAX_AGE && Mirrors(q, h) && InOrder(h)
    requires j < Young(h.changes, h.now) <= SINC_QUEUE_LENGTH
    ensures ValidQueue(q) && j < |h.changes|
    ensures Agreement(q, h, winsinc, j + 1) ==> Agreement(q, h, winsinc, j)
  {
    SameLevel(q, h);
    YoungIsYoung(h.changes, h.now, j);
    hide Mirrors, InOrder, Aliased, Scan, Visited, FullSum, Young, Older, Newest;
    YoungStep(q, h, winsinc, j);
  }

  lemma {:induction false} ScanAgrees(q: Queue, h: History, winsinc: seq<int>, j: nat)
    requires |winsinc| == SINC_QUEUE_MAX_AGE && Mirrors(q, h) && InOrder(h)
    requires j <= Young(h.changes, h.now) <= SINC_QUEUE_LENGTH
    ensures ValidQueue(q) && j <= |h.changes| && Agreement(q, h, winsinc, j)
    decreases Young(h.changes, h.now) - j
  {
    hide Agreement, Mirrors, InOrder, Young;
    SameLevel(q, h);
    YoungIsYoung(h.changes, h.now, j);
    if j < Young(h.changes, h.now) {
      AgreementStep(q, h, winsinc, j);
      ScanAgrees(q, h, winsinc, j + 1);
    } else {
      AgreementEnds(q, h, winsinc);
    }
  }

  lemma AgreementEnds(q: Queue, h: History, winsinc: seq<int>)
    requires |winsinc| == SINC_QUEUE_MAX_AGE && Mirrors(q, h) && InOrder(h)
    requires Young(h.changes, h.now) <= SINC_QUEUE_LENGTH && Young(h.changes, h.now) <= |h.changes|
    ensures ValidQueue(q) && Agreement(q, h, winsinc, Young(h.changes, h.now))
  {
    SameLevel(q, h);
    hide Mirrors, InOrder, Aliased, Scan, Visited, FullSum, Young;
    ScanStops(q, h, winsinc);
  }

  /** At the first change that is too old the scan stops, unless that change is aliased. */
  lemma ScanStops(q: Queue, h: History, winsinc: seq<int>)
    requires |winsinc| == SINC_QUEUE_MAX_AGE && Mirrors(q, h) && InOrder(h)
    requires Young(h.changes, h.now) <= SINC_QUEUE_LENGTH && Young(h.changes, h.now) <= |h.changes|
    ensures var k := Young(h.changes, h.now);
            && FullSum(Older(h, k), h.now, winsinc) == 0
            && (!Aliased(h) ==> Visited(q, k) == 0 && Scan(q, winsinc, k) == 0)
            && (Aliased(h) ==> Visited(q, k) > 0)
  {
    var n, k := |h.changes|, Young(h.changes, h.now);
    YoungIs(h.changes, h.now);
    SameLevel(q, h);
    OldSumIsZero(h, winsinc, n - k);
    hide Young, FullSum, Mirrors, InOrder, LooksYoung, Newest, Scan, Visited;
    if k == n {
      EmptyEntriesAddNothing(q, h, winsinc, k);
    } else if k < SINC_QUEUE_LENGTH {
      FirstOldEntry(q, h, winsinc, k);
    }
  }

  lemma FirstOldEntry(q: Queue, h: History, winsinc: seq<int>, k: nat)
    requires |winsinc| == SINC_QUEUE_MAX_AGE && Mirrors(q, h) && InOrder(h) && k < |h.changes| && k < SINC_QUEUE_LENGTH
    ensures ValidQueue(q)
    ensures if LooksYoung(h, k) then Visited(q, k) > 0
            else Visited(q, k) == 0 && Scan(q, winsinc, k) == 0
  {
    EntryCounts(q, h, k);
    hide Scan, Visited, S32, Mirrors, InOrder, Slot, Newest;
    WrappedAge(q, h, k);
    if LooksYoung(h, k) { CountsAt(q, k); } else { StopsAt(q, winsinc, k); }
  }

  lemma StopsAt(q: Queue, winsinc: seq<int>, j: nat)
    requires ValidQueue(q) && |winsinc| == SINC_QUEUE_MAX_AGE && j < SINC_QUEUE_LENGTH
    requires !(0 <= S32(q.time - Slot(q, j).time) < SINC_QUEUE_MAX_AGE)
    ensures Visited(q, j) == 0 && Scan(q, winsinc, j) == 0
  {
    hide S32, Slot;
  }

  lemma CountsAt(q: Queue, j: nat)
    requires ValidQueue(q) && j < SINC_QUEUE_LENGTH
    requires 0 <= S32(q.time - Slot(q, j).time) < SINC_QUEUE_MAX_AGE && Slot(q, j).output != 0
    ensures Visited(q, j) > 0
  {
    hide S32, Slot;
  }

  lemma EntryCounts(q: Queue, h: History, k: nat)
    requires Mirrors(q, h) && InOrder(h) && k < |h.changes| && k < SINC_QUEUE_LENGTH
    ensures ValidQueue(q) && Slot(q, k).output != 0
  {
    hide S32, Slot;
    assert h.changes[|h.changes| - 1 - k].delta != 0;
  }

  /* ---------- Main results ---------- */

  /** After any run of calls whose changes are at least 8 time units apart, the early-stopping scan
      of the ring adds exactly the changes younger than 2048, out of the whole unbounded history,
      if and only if the first change that is too old is not made young again by the wrap of the
      32-bit clock; and then the two sums are equal. */
  lemma RingAgreesWithHistory(calls: seq<Call>, winsinc: seq<int>)
    requires |winsinc| == SINC_QUEUE_MAX_AGE && Spaced(Recorded(calls).changes)
    ensures var q, h := Queued(calls), Recorded(calls);
            && (Visited(q, 0) == Young(h.changes, h.now) <==> !Aliased(h))
            && (!Aliased(h) ==> Scan(q, winsinc, 0) == FullSum(h.changes, h.now, winsinc))
  {
    RunMirrors(calls);
    QueueAgrees(Queued(calls), Recorded(calls), winsinc);
  }

  /** The same for any queue and history that mirror each other. */
  lemma QueueAgrees(q: Queue, h: History, winsinc: seq<int>)
    requires |winsinc| == SINC_QUEUE_MAX_AGE && Mirrors(q, h) && InOrder(h) && Spaced(h.changes)
    ensures Visited(q, 0) == Young(h.changes, h.now) <==> !Aliased(h)
    ensures !Aliased(h) ==> Scan(q, winsinc, 0) == FullSum(h.changes, h.now, winsinc)
  {
    hide Mirrors, Aliased;
    YoungFit(h);
    ScanAgrees(q, h, winsinc, 0);
    assert h.changes[..|h.changes|] == h.changes;
  }

  /** While the emulated time of the run stays below 2^32 - nothing wraps that far - the agreement
      is unconditional. */
  lemma ShortRunsAgree(calls: seq<Call>, winsinc: seq<int>)
    requires |winsinc| == SINC_QUEUE_MAX_AGE && Spaced(Recorded(calls).changes)
    requires Recorded(calls).now < TWO_32
    ensures Scan(Queued(calls), winsinc, 0) == FullSum(Recorded(calls).changes, Recorded(calls).now, winsinc)
  {
    RingAgreesWithHistory(calls, winsinc);
    FirstChangeNotNegative(calls);
    NoWrapNoAlias(Recorded(calls));
  }

  lemma NoWrapNoAlias(h: History)
    requires h.now < TWO_32 && forall i :: 0 <= i < |h.changes| ==> 0 <= h.changes[i].at <= h.now
    ensures !Aliased(h)
  {
    var k := Young(h.changes, h.now);
    YoungIs(h.changes, h.now);
    if k < |h.changes| {
      var age := h.now - Newest(h.changes, k).at;
      ModUnique(age, TWO_32, 0, age);
    }
  }

  lemma {:induction false} FirstChangeNotNegative(calls: seq<Call>)
    ensures var h := Recorded(calls); h.now >= 0 && forall i :: 0 <= i < |h.changes| ==> 0 <= h.changes[i].at <= h.now
  {
    RunMirrors(calls);
    if calls != [] { FirstChangeNotNegative(calls[..|calls| - 1]); }
  }

  /** The recorded deltas add up to the current output state. */
  lemma {:induction false} DeltasTelescope(calls: seq<Call>)
    ensures Total(Recorded(calls).changes) == Recorded(calls).level == Queued(calls).state
  {
    if calls != [] {
      var before := calls[..|calls| - 1];
      DeltasTelescope(before);
      var h, c := Recorded(before), calls[|calls| - 1];
      if h.level != c.output {
        assert Recorded(calls).changes[..|h.changes|] == h.changes;
      }
    }
  }

  /** A channel that stays silent for 2^32 + 5 time units: the scan adds a step it should not. */
  lemma WrapCanDisagree(winsinc: seq<int>)
    requires |winsinc| == SINC_QUEUE_MAX_AGE && winsinc[5] != 0
    ensures var calls := [Call(64, TWO_31 - 1), Call(64, TWO_31 - 1), Call(64, 7)];
            && Spaced(Recorded(calls).changes)
            && Scan(Queued(calls), winsinc, 0) != FullSum(Recorded(calls).changes, Recorded(calls).now, winsinc)
  {
    var calls := [Call(64, TWO_31 - 1), Call(64, TWO_31 - 1), Call(64, 7)];
    var h := History([Change(0, 64)], TWO_32 + 5, 64);
    SilentRun();
    RunMirrors(calls);
    StaleStepAdded(Queued(calls), h, winsinc);
    assert h.changes[..0] == [];
  }

  lemma SilentRun()
    ensures Recorded([Call(64, TWO_31 - 1), Call(64, TWO_31 - 1), Call(64, 7)]) ==
            History([Change(0, 64)], TWO_32 + 5, 64)
  {
    var c3 := [Call(64, TWO_31 - 1), Call(64, TWO_31 - 1), Call(64, 7)];
    var c2 := [Call(64, TWO_31 - 1), Call(64, TWO_31 - 1)];
    var c1 := [Call(64, TWO_31 - 1)];
    assert c3[..2] == c2 && c2[..1] == c1 && c1[..0] == [];
    assert Recorded(c1) == History([Change(0, 64)], TWO_31 - 1, 64);
  }

  lemma StaleStepAdded(q: Queue, h: History, winsinc: seq<int>)
    requires |winsinc| == SINC_QUEUE_MAX_AGE && Mirrors(q, h)
    requires h == History([Change(0, 64)], TWO_32 + 5, 64)
    ensures Scan(q, winsinc, 0) == winsinc[5] * 64
  {
    S32Sub(h.now, 0);
    assert S32(q.time - Slot(q, 0).time) == 5;
    EmptyEntriesAddNothing(q, h, winsinc, 1);
  }

  /* ---------- The queue as it sits in memory ---------- */

  class SincChannel {
    const sincQueue: array<Entry>
    var head: int
    var time: int
    var outputState: int

    ghost function Model(): Queue
      reads this, sincQueue
    {
      Queue(sincQueue[..], head, time, outputState)
    }

    constructor ()
      ensures Model() == Empty() && fresh(sincQueue)
    {
      sincQueue := new Entry[SINC_QUEUE_LENGTH](i => Entry(0, 0));
      head, time, outputState := 0, 0, 0;
    }

    method SincPrehandler(output: int, best: nat)
      requires ValidQueue(Model())
      modifies this, sincQueue
      ensures Model() == Prehandler(old(Model()), output, best)
    {
      if outputState != output {
        head := (head - 1) % SINC_QUEUE_LENGTH;
        sincQueue[head] := Entry(time, output - outputState);
        outputState := output;
      }
      time := S32(time + best);
    }

    method SincSample(winsinc: seq<int>) returns (v: int)
      requires ValidQueue(Model()) && |winsinc| == SINC_QUEUE_MAX_AGE
      ensures v == Sample(Model(), winsinc)
    {
      hide Scan, S32;
      ghost var q := Model();
      var sum := outputState * 0x20000;
      var offset := head;
      var j := 0;
      ScanUnfold(q, winsinc, 0);
      while j < SINC_QUEUE_LENGTH
        invariant 0 <= j <= SINC_QUEUE_LENGTH
        invariant offset == (head + j) % SINC_QUEUE_LENGTH
        invariant sum - Scan(q, winsinc, j) == outputState * 0x20000 - Scan(q, winsinc, 0)
      {
        ScanUnfold(q, winsinc, j);
        var age := S32(time - sincQueue[offset].time);
        if age >= SINC_QUEUE_MAX_AGE || age < 0 {
          break;
        }
        sum := sum - winsinc[age] * sincQueue[offset].output;
        ModAdd(head + j, 1, SINC_QUEUE_LENGTH);
        offset := (offset + 1) % SINC_QUEUE_LENGTH;
        j := j + 1;
      }
      v := Clamp16(sum / 0x8000);
    }
  }
}
