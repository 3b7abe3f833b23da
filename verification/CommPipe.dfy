/** The user-level pipe between two emulator threads (include/commpipe.h).

    One writer and one reader share a ring of `size` slots.  Each thread is a program counter;
    one step is one access to shared memory or one semaphore operation, and the steps of the two
    threads interleave in any order (sequential consistency).  The writer has a fast path: when it
    sees `readerWaiting` it stores without the lock and without the full test. */
module CommPipe {
  import opened Arith

  /** The union uae_pt, as its bit pattern. */
  type Cell = int

  /** One call of write_comm_pipe_pt: the value and its no_buffer flag. */
  datatype Item = Item(value: Cell, noBuffer: bool)

  /** Where the writer is inside write_comm_pipe_pt.  The store, advance and wake steps occur
      once on the lock-free path (`fast`) and once under the lock. */
  datatype WriterPc =
    | WIdle
    | WCheckWaiting
    | WLock
    | WCheckFull
    | WSetWaiting
    | WUnlock
    | WWait
    | WRelock
    | WStore(fast: bool)
    | WAdvance(fast: bool)
    | WWake(fast: bool)
    | WTest(fast: bool)
    | WClear(fast: bool)
    | WPost(fast: bool)
    | WRelease

  /** Where the reader is inside read_comm_pipe_pt_blocking. */
  datatype ReaderPc =
    | RIdle
    | RLock
    | RCheckEmpty
    | RSetWaiting
    | RUnlock
    | RWait
    | RRelock
    | RTake
    | RAdvance
    | RCheckWriter
    | RClear
    | RPost
    | RRelease

  /** Shared memory, the two threads, and two logs: `sent` grows when the writer advances `wrp`,
      `received` when the reader advances `rdp`. */
  datatype State = State(
    size: int, chunks: int, data: seq<Cell>, rdp: int, wrp: int,
    readerWaiting: bool, writerWaiting: bool,
    lock: nat, readerSem: nat, writerSem: nat,
    wpc: WriterPc, call: Item, rpc: ReaderPc, taken: Cell,
    sent: seq<Item>, received: seq<Cell>)

  predicate WellSized(s: State) {
    && s.size >= 1
    && |s.data| == s.size
    && 0 <= s.rdp < s.size
    && 0 <= s.wrp < s.size
  }

  /** init_comm_pipe: both indices zero, nobody waiting, the lock free.  The slots, the writer's
      argument and the reader's local start with arbitrary contents. */
  function Init(chunks: int, data: seq<Cell>, call: Item, taken: Cell): State
  {
    State(|data|, chunks, data, 0, 0, false, false, 1, 0, 0, WIdle, call, RIdle, taken, [], [])
  }

  /** The distance maybe_wake_reader compares with `chunks`. */
  function Queued(s: State): (n: int)
    requires s.size >= 1
    ensures 0 <= n < s.size
  {
    (s.wrp - s.rdp + s.size) % s.size
  }

  /** Leave maybe_wake_reader: the fast path returns, the slow path releases the lock. */
  function AfterWake(fast: bool): WriterPc {
    if fast then WIdle else WRelease
  }

  predicate WriterBlocked(s: State) {
    ((s.wpc.WLock? || s.wpc.WRelock?) && s.lock == 0) || (s.wpc.WWait? && s.writerSem == 0)
  }

  predicate ReaderBlocked(s: State) {
    ((s.rpc.RLock? || s.rpc.RRelock?) && s.lock == 0) || (s.rpc.RWait? && s.readerSem == 0)
  }

  /** One step of the writer.  `next` is the call it makes when it is idle. */
  function WriterStep(s: State, next: Item): (r: State)
    requires WellSized(s) && !WriterBlocked(s)
    ensures WellSized(r) && r.size == s.size && r.chunks == s.chunks
  {
    if InWake(s.wpc) then WakeStep(s) else if InStore(s.wpc) then StoreStep(s) else LockStep(s, next)
  }

  predicate InStore(p: WriterPc) {
    p.WStore? || p.WAdvance?
  }

  /** nxwrp */
  function NextSlot(s: State): (n: int)
    requires WellSized(s)
    ensures 0 <= n < s.size
  {
    (s.wrp + 1) % s.size
  }

  predicate AtSemaphore(p: WriterPc) {
    p.WLock? || p.WUnlock? || p.WWait? || p.WRelock? || p.WRelease?
  }

  /** One step of the writer outside the store and maybe_wake_reader. */
  function LockStep(s: State, next: Item): State
    requires WellSized(s) && !WriterBlocked(s) && !InWake(s.wpc) && !InStore(s.wpc)
  {
    match s.wpc
    case WIdle => s.(call := next, wpc := WCheckWaiting)
    case WCheckWaiting => s.(wpc := if s.readerWaiting then WStore(true) else WLock)
    case WLock => s.(lock := s.lock - 1, wpc := WCheckFull)
    case WCheckFull => s.(wpc := if NextSlot(s) == s.rdp then WSetWaiting else WStore(false))
    case WSetWaiting => s.(writerWaiting := true, wpc := WUnlock)
    case WUnlock => s.(lock := s.lock + 1, wpc := WWait)
    case WWait => s.(writerSem := s.writerSem - 1, wpc := WRelock)
    case WRelock => s.(lock := s.lock - 1, wpc := WStore(false))
    case WRelease => s.(lock := s.lock + 1, wpc := WIdle)
  }

  /** One step of the writer putting its value in the ring. */
  function StoreStep(s: State): State
    requires WellSized(s) && InStore(s.wpc)
  {
    match s.wpc
    case WStore(fast) => s.(data := s.data[s.wrp := s.call.value], wpc := WAdvance(fast))
    case WAdvance(fast) => s.(wrp := NextSlot(s), sent := s.sent + [s.call], wpc := WWake(fast))
  }

  predicate InWake(p: WriterPc) {
    p.WWake? || p.WTest? || p.WClear? || p.WPost?
  }

  /** One step of the writer inside maybe_wake_reader. */
  function WakeStep(s: State): State
    requires WellSized(s) && InWake(s.wpc)
  {
    match s.wpc
    case WWake(fast) => s.(wpc := if s.readerWaiting then WTest(fast) else AfterWake(fast))
    case WTest(fast) =>
      s.(wpc := if s.call.noBuffer || Queued(s) >= s.chunks then WClear(fast) else AfterWake(fast))
    case WClear(fast) => s.(readerWaiting := false, wpc := WPost(fast))
    case WPost(fast) => s.(readerSem := s.readerSem + 1, wpc := AfterWake(fast))
  }

  /** One step of the reader. */
  function ReaderStep(s: State): (r: State)
    requires WellSized(s) && !ReaderBlocked(s)
    ensures WellSized(r) && r.size == s.size && r.chunks == s.chunks
  {
    if InTake(s.rpc) then TakeStep(s) else EnterStep(s)
  }

  /** One step of the reader before the pipe is known to hold a value. */
  function EnterStep(s: State): State
    requires WellSized(s) && !ReaderBlocked(s) && !InTake(s.rpc)
  {
    match s.rpc
    case RIdle => s.(rpc := RLock)
    case RLock => s.(lock := s.lock - 1, rpc := RCheckEmpty)
    case RCheckEmpty => s.(rpc := if s.rdp == s.wrp then RSetWaiting else RTake)
    case RSetWaiting => s.(readerWaiting := true, rpc := RUnlock)
    case RUnlock => s.(lock := s.lock + 1, rpc := RWait)
    case RWait => s.(readerSem := s.readerSem - 1, rpc := RRelock)
    case RRelock => s.(lock := s.lock - 1, rpc := RTake)
  }

  predicate InTake(p: ReaderPc) {
    p.RTake? || p.RAdvance? || p.RCheckWriter? || p.RClear? || p.RPost? || p.RRelease?
  }

  /** One step of the reader once it holds the lock and the pipe is known to hold a value. */
  function TakeStep(s: State): State
    requires WellSized(s) && InTake(s.rpc)
  {
    match s.rpc
    case RTake => s.(taken := s.data[s.rdp], rpc := RAdvance)
    case RAdvance =>
      s.(rdp := (s.rdp + 1) % s.size, received := s.received + [s.taken], rpc := RCheckWriter)
    case RCheckWriter => s.(rpc := if s.writerWaiting then RClear else RRelease)
    case RClear => s.(writerWaiting := false, rpc := RPost)
    case RPost => s.(writerSem := s.writerSem + 1, rpc := RRelease)
    case RRelease => s.(lock := s.lock + 1, rpc := RIdle)
  }

  /** What the scheduler picks: the writer (with the call it makes if it is idle) or the reader. */
  datatype Choice = Writer(next: Item) | Reader

  /** A scheduled thread that is blocked does not move. */
  function Step(s: State, c: Choice): (r: State)
    requires WellSized(s)
    ensures WellSized(r) && r.size == s.size && r.chunks == s.chunks
  {
    match c
    case Writer(next) => if WriterBlocked(s) then s else WriterStep(s, next)
    case Reader => if ReaderBlocked(s) then s else ReaderStep(s)
  }

  /** A whole interleaving. */
  function Exec(s: State, schedule: seq<Choice>): (r: State)
    requires WellSized(s)
    ensures WellSized(r) && r.size == s.size && r.chunks == s.chunks
    decreases |schedule|
  {
    if schedule == [] then s else Exec(Step(s, schedule[0]), schedule[1..])
  }

  /* ---------- What must hold of every reachable state ---------- */

  function Count(s: State): int {
    |s.sent| - |s.received|
  }

  /** The values read are a prefix of the values written, in order. */
  ghost predicate PrefixRead(s: State) {
    && |s.received| <= |s.sent|
    && forall i :: 0 <= i < |s.received| ==> s.received[i] == s.sent[i].value
  }

  /** Every written and unread value is still in its slot. */
  ghost predicate UnreadIntact(s: State)
    requires WellSized(s)
  {
    forall i :: |s.received| <= i < |s.sent| ==> s.data[i % s.size] == s.sent[i].value
  }

  /* ---------- The invariant ---------- */

  predicate WriterHoldsLock(p: WriterPc) {
    || p.WCheckFull? || p.WSetWaiting? || p.WUnlock? || p.WRelease?
    || (InStore(p) && !p.fast)
    || (InWake(p) && !p.fast)
  }

  predicate ReaderHoldsLock(p: ReaderPc) {
    !(p.RIdle? || p.RLock? || p.RWait? || p.RRelock?)
  }

  ghost predicate Locking(s: State) {
    && !(WriterHoldsLock(s.wpc) && ReaderHoldsLock(s.rpc))
    && s.lock == (if WriterHoldsLock(s.wpc) || ReaderHoldsLock(s.rpc) then 0 else 1)
  }

  ghost predicate Ring(s: State)
    requires WellSized(s)
  {
    && PrefixRead(s)
    && UnreadIntact(s)
    && Count(s) <= s.size - 1
    && s.rdp == |s.received| % s.size
    && s.wrp == |s.sent| % s.size
  }

  /** The reader sits between setting its flag and consuming its wake-up. */
  predicate ReaderParked(p: ReaderPc) { p.RUnlock? || p.RWait? }

  predicate WriterParked(p: WriterPc) { p.WUnlock? || p.WWait? }

  /** The reader's flag, the writer's pending post and the semaphore hold exactly one token while
      the reader is parked and none otherwise. */
  ghost predicate ReaderToken(s: State) {
    && (s.readerWaiting || s.wpc.WPost? ==> ReaderParked(s.rpc))
    && !(s.readerWaiting && s.wpc.WPost?)
    && s.readerSem == (if ReaderParked(s.rpc) && !s.readerWaiting && !s.wpc.WPost? then 1 else 0)
  }

  ghost predicate WriterToken(s: State) {
    && (s.writerWaiting || s.rpc.RPost? ==> WriterParked(s.wpc))
    && !(s.writerWaiting && s.rpc.RPost?)
    && s.writerSem == (if WriterParked(s.wpc) && !s.writerWaiting && !s.rpc.RPost? then 1 else 0)
  }

  /** No completed and unread write asked for an immediate wake-up. */
  ghost predicate Unflagged(s: State, upTo: int) {
    forall i :: |s.received| <= i < upTo && i < |s.sent| ==> !s.sent[i].noBuffer
  }

  /** While the reader's flag is up the pipe stays below `chunks`, which is what makes the
      lock-free store safe; once the flag is down the reader finds data. */
  ghost predicate ReaderSide(s: State) {
    && (s.readerWaiting ==>
          if InWake(s.wpc) then
            FreshWrite(s) && (s.wpc.WClear? ==> s.call.noBuffer || Count(s) >= s.chunks)
          else
            (Count(s) == 0 || Count(s) < s.chunks) && Unflagged(s, |s.sent|))
    && (ReaderParked(s.rpc) && !s.readerWaiting ==> Count(s) >= 1)
    && (s.rpc.RRelock? || s.rpc.RTake? || s.rpc.RAdvance? ==> Count(s) >= 1)
    && (s.rpc.RSetWaiting? ==> Count(s) == 0)
    && (s.rpc.RAdvance? ==> s.taken == s.sent[|s.received|].value)
  }

  /** One value has just been added to a pipe that was below `chunks`. */
  ghost predicate FreshWrite(s: State) {
    && Count(s) >= 1
    && (Count(s) == 1 || Count(s) <= s.chunks)
    && s.sent[|s.sent| - 1] == s.call
    && Unflagged(s, |s.sent| - 1)
  }

  ghost predicate WriterSide(s: State)
    requires WellSized(s)
  {
    && (s.writerWaiting ==> Count(s) == if s.rpc.RCheckWriter? || s.rpc.RClear? then s.size - 2 else s.size - 1)
    && (s.rpc.RClear? ==> s.writerWaiting)
    && (WriterParked(s.wpc) && !s.writerWaiting ==> Count(s) <= s.size - 2)
    && (s.wpc.WRelock? ==> Count(s) <= s.size - 2)
    && (s.wpc.WSetWaiting? ==> Count(s) == s.size - 1)
    && (s.wpc.WStore? || s.wpc.WAdvance? ==> Count(s) <= s.size - 2)
    && (s.wpc.WAdvance? ==> s.data[s.wrp] == s.call.value)
    && (InStore(s.wpc) && s.wpc.fast ==> s.readerWaiting)
    && (s.wpc.WWake? && s.wpc.fast ==> s.readerWaiting)
    && (s.wpc.WTest? || s.wpc.WClear? ==> s.readerWaiting)
  }

  ghost predicate Inv(s: State) {
    && s.size >= 2
    && s.chunks < s.size
    && WellSized(s)
    && Locking(s)
    && Ring(s)
    && ReaderToken(s)
    && WriterToken(s)
    && ReaderSide(s)
    && WriterSide(s)
  }

  /* ---------- The invariant is inductive ---------- */

  /** The index tests of the code mean what they should in terms of the number of queued values. */
  lemma QueuedIsCount(s: State)
    requires WellSized(s) && Ring(s)
    ensures Queued(s) == Count(s)
    ensures s.rdp == s.wrp <==> Count(s) == 0
    ensures NextSlot(s) == s.rdp <==> Count(s) == s.size - 1
  {
    var r, w, n := |s.received|, |s.sent|, s.size;
    IndexDistance(r, w, n);
    ModAdd(w, 1, n);
    ModShift(r, n, 1);
    if w - r < n - 1 { SlotsDiffer(r, w + 1, n); }
    if w > r { SlotsDiffer(r, w, n); }
  }

  /** Equal in everything the ring speaks of. */
  predicate SameRing(s: State, t: State) {
    && t.size == s.size && t.data == s.data && t.rdp == s.rdp && t.wrp == s.wrp
    && t.sent == s.sent && t.received == s.received
  }

  lemma RingStays(s: State, t: State)
    requires WellSized(s) && WellSized(t) && Ring(s) && SameRing(s, t)
    ensures Ring(t)
  {
  }

  /** Storing in the next free slot. */
  lemma SlotStored(s: State)
    requires WellSized(s) && Ring(s) && s.wpc.WStore? && Count(s) <= s.size - 2
    ensures Ring(StoreStep(s))
  {
    var t := StoreStep(s);
    forall i | |s.received| <= i < |s.sent| ensures t.data[i % s.size] == s.sent[i].value {
      SlotsDiffer(i, |s.sent|, s.size);
    }
  }

  lemma WriteCounted(s: State)
    requires WellSized(s) && Ring(s) && s.wpc.WAdvance? && Count(s) <= s.size - 2 && s.data[s.wrp] == s.call.value
    ensures Ring(StoreStep(s))
  {
    ModAdd(|s.sent|, 1, s.size);
  }

  lemma WriterKeepsRing(s: State, next: Item)
    requires Inv(s) && !WriterBlocked(s)
    ensures Ring(WriterStep(s, next))
  {
    hide Ring, StoreStep, ReaderSide, ReaderToken, WriterToken, Locking;
    if s.wpc.WStore? { SlotStored(s); }
    else if s.wpc.WAdvance? { WriteCounted(s); }
    else { RingStays(s, WriterStep(s, next)); }
  }

  lemma WriterKeepsTokens(s: State, next: Item)
    requires WellSized(s) && Locking(s) && ReaderToken(s) && WriterToken(s)
    requires s.wpc.WClear? ==> s.readerWaiting
    requires !WriterBlocked(s)
    ensures var t := WriterStep(s, next); Locking(t) && ReaderToken(t) && WriterToken(t)
  {
    if InWake(s.wpc) { WakeKeepsTokens(s); } else if !InStore(s.wpc) { LockKeepsTokens(s, next); }
  }

  lemma WakeKeepsTokens(s: State)
    requires WellSized(s) && Locking(s) && ReaderToken(s) && WriterToken(s)
    requires InWake(s.wpc) && (s.wpc.WClear? ==> s.readerWaiting)
    ensures var t := WakeStep(s); Locking(t) && ReaderToken(t) && WriterToken(t)
  {
  }

  lemma LockKeepsTokens(s: State, next: Item)
    requires WellSized(s) && Locking(s) && ReaderToken(s) && WriterToken(s)
    requires !WriterBlocked(s) && !InWake(s.wpc) && !InStore(s.wpc)
    ensures var t := LockStep(s, next); Locking(t) && ReaderToken(t) && WriterToken(t)
  {
  }

  lemma WriterKeepsReaderSide(s: State, next: Item)
    requires WellSized(s) && !WriterBlocked(s)
    requires |s.received| <= |s.sent| && Queued(s) == Count(s)
    requires Locking(s) && ReaderToken(s) && ReaderSide(s) && WriterSide(s)
    ensures ReaderSide(WriterStep(s, next))
  {
    hide ReaderSide, WriterSide, ReaderToken, Locking, WakeStep, StoreStep;
    if InWake(s.wpc) {
      WakeKeepsReaderSide(s);
    } else if InStore(s.wpc) {
      StoreKeepsReaderSide(s);
    } else {
      LockKeepsReaderSide(s, next);
    }
  }

  lemma LockKeepsReaderSide(s: State, next: Item)
    requires WellSized(s) && !WriterBlocked(s) && !InWake(s.wpc) && !InStore(s.wpc) && ReaderSide(s)
    ensures ReaderSide(LockStep(s, next))
  {
    hide FreshWrite, Unflagged;
    UnflaggedStays(s, LockStep(s, next));
  }

  lemma UnflaggedStays(s: State, t: State)
    requires t.sent == s.sent && t.received == s.received
    ensures Unflagged(s, |s.sent|) == Unflagged(t, |t.sent|)
  {
  }

  lemma StoreKeepsReaderSide(s: State)
    requires WellSized(s) && InStore(s.wpc)
    requires |s.received| <= |s.sent|
    requires Locking(s) && ReaderToken(s) && ReaderSide(s) && WriterSide(s)
    ensures ReaderSide(StoreStep(s))
  {
  }

  lemma WakeKeepsReaderSide(s: State)
    requires WellSized(s) && InWake(s.wpc)
    requires |s.received| <= |s.sent| && Queued(s) == Count(s)
    requires Locking(s) && ReaderToken(s) && ReaderSide(s) && WriterSide(s)
    ensures ReaderSide(WakeStep(s))
  {
  }

  lemma WriterKeepsWriterSide(s: State, next: Item)
    requires Inv(s) && !WriterBlocked(s)
    ensures WriterSide(WriterStep(s, next))
  {
    if InWake(s.wpc) {
    } else if InStore(s.wpc) {
    } else {
      QueuedIsCount(s);
      LockKeepsWriterSide(s, next);
    }
  }

  lemma LockKeepsWriterSide(s: State, next: Item)
    requires WellSized(s) && Locking(s) && ReaderToken(s) && WriterToken(s) && WriterSide(s)
    requires Count(s) <= s.size - 1 && (NextSlot(s) == s.rdp <==> Count(s) == s.size - 1)
    requires s.readerWaiting ==> Count(s) <= s.size - 2
    requires !WriterBlocked(s) && !InWake(s.wpc) && !InStore(s.wpc)
    ensures WriterSide(LockStep(s, next))
  {
  }

  lemma WriterStepInv(s: State, next: Item)
    requires Inv(s) && !WriterBlocked(s)
    ensures Inv(WriterStep(s, next))
  {
    WriterKeepsRing(s, next);
    WriterKeepsTokens(s, next);
    QueuedIsCount(s);
    WriterKeepsReaderSide(s, next);
    WriterKeepsWriterSide(s, next);
  }

  lemma ReaderKeepsRing(s: State)
    requires Inv(s) && !ReaderBlocked(s)
    ensures Ring(ReaderStep(s))
  {
    hide Ring, ReaderToken, WriterToken, Locking, WriterSide;
    if s.rpc.RAdvance? { ReadCounted(s); } else { RingStays(s, ReaderStep(s)); }
  }

  lemma ReadCounted(s: State)
    requires WellSized(s) && Ring(s) && s.rpc.RAdvance? && Count(s) >= 1 && s.taken == s.sent[|s.received|].value
    ensures Ring(TakeStep(s))
  {
    ModAdd(|s.received|, 1, s.size);
  }

  lemma ReaderKeepsTokens(s: State)
    requires WellSized(s) && Locking(s) && ReaderToken(s) && WriterToken(s)
    requires s.rpc.RClear? ==> s.writerWaiting
    requires !ReaderBlocked(s)
    ensures var t := ReaderStep(s); Locking(t) && ReaderToken(t) && WriterToken(t)
  {
  }

  lemma ReaderKeepsReaderSide(s: State)
    requires Inv(s) && !ReaderBlocked(s)
    ensures ReaderSide(ReaderStep(s))
  {
    QueuedIsCount(s);
    hide WriterToken, EnterStep, TakeStep, ReaderSide;
    if InTake(s.rpc) { TakeKeepsReaderSide(s); } else { EnterKeepsReaderSide(s); }
  }

  lemma TakeKeepsReaderSide(s: State)
    requires WellSized(s) && Ring(s) && ReaderToken(s) && ReaderSide(s) && InTake(s.rpc)
    ensures ReaderSide(TakeStep(s))
  {
    if s.rpc.RTake? { assert s.data[|s.received| % s.size] == s.sent[|s.received|].value; }
  }

  lemma EnterKeepsReaderSide(s: State)
    requires WellSized(s) && Locking(s) && ReaderToken(s) && WriterSide(s) && ReaderSide(s) && |s.received| <= |s.sent|
    requires !InTake(s.rpc) && !ReaderBlocked(s) && (s.rdp == s.wrp <==> Count(s) == 0)
    ensures ReaderSide(EnterStep(s))
  {
  }

  lemma ReaderKeepsWriterSide(s: State)
    requires Inv(s) && !ReaderBlocked(s)
    ensures WriterSide(ReaderStep(s))
  {
    QueuedIsCount(s);
    hide Ring, ReaderSide, EnterStep, TakeStep, WriterSide;
    if InTake(s.rpc) { TakeKeepsWriterSide(s); } else { EnterKeepsWriterSide(s); }
  }

  lemma TakeKeepsWriterSide(s: State)
    requires WellSized(s) && Locking(s) && ReaderToken(s) && WriterToken(s) && WriterSide(s) && InTake(s.rpc)
    requires Count(s) <= s.size - 1
    ensures WriterSide(TakeStep(s))
  {
  }

  lemma EnterKeepsWriterSide(s: State)
    requires WellSized(s) && WriterSide(s) && !InTake(s.rpc) && !ReaderBlocked(s)
    ensures WriterSide(EnterStep(s))
  {
  }

  lemma ReaderStepInv(s: State)
    requires Inv(s) && !ReaderBlocked(s)
    ensures Inv(ReaderStep(s))
  {
    ReaderKeepsRing(s);
    ReaderKeepsTokens(s);
    ReaderKeepsReaderSide(s);
    ReaderKeepsWriterSide(s);
  }

  lemma {:induction false} ExecInv(s: State, schedule: seq<Choice>)
    requires Inv(s)
    ensures Inv(Exec(s, schedule))
    decreases |schedule|
  {
    if schedule != [] {
      match schedule[0] {
        case Writer(next) => if !WriterBlocked(s) { WriterStepInv(s, next); }
        case Reader => if !ReaderBlocked(s) { ReaderStepInv(s); }
      }
      ExecInv(Step(s, schedule[0]), schedule[1..]);
    }
  }

  lemma ExecAppend(s: State, first: seq<Choice>, second: seq<Choice>)
    requires WellSized(s)
    ensures Exec(s, first + second) == Exec(Exec(s, first), second)
    decreases |first|
  {
    if first == [] {
      assert first + second == second;
    } else {
      assert (first + second)[1..] == first[1..] + second;
      ExecAppend(Step(s, first[0]), first[1..], second);
    }
  }

  /* ---------- Main results ---------- */

  /** The reads so far are a prefix of the writes, and no unread slot has been overwritten. */
  ghost predicate Safe(s: State)
    requires WellSized(s)
  {
    PrefixRead(s) && UnreadIntact(s)
  }

  ghost predicate SafeInEveryRun(s: State)
    requires WellSized(s)
  {
    forall schedule :: Safe(Exec(s, schedule))
  }

  /** With two slots or more, the pipe is safe in every interleaving exactly when `chunks` is
      smaller than `size`. */
  lemma SafeExactlyWhenChunksFit(chunks: int, data: seq<Cell>, call: Item, taken: Cell)
    requires |data| >= 2
    ensures SafeInEveryRun(Init(chunks, data, call, taken)) <==> chunks < |data|
  {
    var s := Init(chunks, data, call, taken);
    if chunks < |data| {
      forall schedule ensures Safe(Exec(s, schedule)) { ExecInv(s, schedule); }
    } else {
      Overrun(s, Exec(s, OverrunSchedule(s.size)));
    }
  }

  /** At any reachable moment one of the two threads can move; a side that has been woken finds a
      value to take, or room to store, without testing again. */
  lemma NeverBothStuck(chunks: int, data: seq<Cell>, call: Item, taken: Cell, schedule: seq<Choice>)
    requires |data| >= 2 && chunks < |data|
    ensures var s := Exec(Init(chunks, data, call, taken), schedule);
            && !(WriterBlocked(s) && ReaderBlocked(s))
            && (s.rpc.RRelock? || s.rpc.RTake? ==> |s.received| < |s.sent|)
            && (s.wpc.WRelock? || s.wpc.WStore? ==> |s.sent| - |s.received| < s.size - 1)
  {
    ExecInv(Init(chunks, data, call, taken), schedule);
  }

  /** Between writes, a reader is left waiting only while fewer than `chunks` values (or none) are
      queued and none of them was sent with no_buffer. */
  lemma WaitingMeansBuffered(chunks: int, data: seq<Cell>, call: Item, taken: Cell, schedule: seq<Choice>)
    requires |data| >= 2 && chunks < |data|
    ensures var s := Exec(Init(chunks, data, call, taken), schedule);
            s.wpc.WIdle? && s.readerWaiting ==>
              && (|s.sent| - |s.received| < chunks || |s.sent| == |s.received|)
              && forall i :: |s.received| <= i < |s.sent| ==> !s.sent[i].noBuffer
  {
    ExecInv(Init(chunks, data, call, taken), schedule);
  }

  /* ---------- A write that wakes the reader gets everything delivered ---------- */

  function Repeat(c: Choice, n: nat): seq<Choice> {
    seq(n, i => c)
  }

  function Reads(n: nat): seq<Choice> {
    Repeat(Reader, n)
  }

  lemma ExecRepeat(s: State, c: Choice, n: nat)
    requires WellSized(s) && n > 0
    ensures Exec(s, Repeat(c, n)) == Exec(Step(s, c), Repeat(c, n - 1))
  {
    assert Repeat(c, n)[1..] == Repeat(c, n - 1);
  }

  lemma ExecNone(s: State, c: Choice)
    requires WellSized(s)
    ensures Exec(s, Repeat(c, 0)) == s
  {
  }

  lemma LockOf(s: State, c: Choice, t: State, n: nat)
    requires WellSized(s) && !InWake(s.wpc) && !InStore(s.wpc) && c.Writer? && !WriterBlocked(s) && n > 0
    requires LockStep(s, c.next) == t
    ensures Exec(s, Repeat(c, n)) == Exec(t, Repeat(c, n - 1))
  {
    ExecRepeat(s, c, n);
  }

  lemma StoreOf(s: State, c: Choice, t: State, n: nat)
    requires WellSized(s) && InStore(s.wpc) && c.Writer? && n > 0
    requires StoreStep(s) == t
    ensures Exec(s, Repeat(c, n)) == Exec(t, Repeat(c, n - 1))
  {
    ExecRepeat(s, c, n);
  }

  lemma WakeOf(s: State, c: Choice, t: State, n: nat)
    requires WellSized(s) && InWake(s.wpc) && c.Writer? && n > 0
    requires WakeStep(s) == t
    ensures Exec(s, Repeat(c, n)) == Exec(t, Repeat(c, n - 1))
  {
    ExecRepeat(s, c, n);
  }

  lemma EnterOf(s: State, t: State, n: nat)
    requires WellSized(s) && !InTake(s.rpc) && !ReaderBlocked(s) && n > 0
    requires EnterStep(s) == t
    ensures Exec(s, Reads(n)) == Exec(t, Reads(n - 1))
  {
    ExecRepeat(s, Reader, n);
  }

  function Values(items: seq<Item>): (vs: seq<Cell>)
    ensures |vs| == |items| && forall i :: 0 <= i < |vs| ==> vs[i] == items[i].value
  {
    seq(|items|, i requires 0 <= i < |items| => items[i].value)
  }

  /** How many reader steps remain until the next value is handed over. */
  function StepsToAdvance(p: ReaderPc): nat {
    match p
    case RAdvance => 1
    case RTake => 2
    case RRelock | RCheckEmpty => 3
    case RWait | RLock => 4
    case RUnlock | RIdle => 5
    case RRelease => 6
    case RPost => 7
    case RClear => 8
    case RCheckWriter => 9
    case RSetWaiting => 6
  }

  lemma {:induction false} ReaderAdvances(s: State)
    returns (n: nat)
    requires Inv(s) && s.wpc.WIdle? && !s.readerWaiting && Count(s) > 0
    ensures var t := Exec(s, Reads(n));
            Inv(t) && t.wpc.WIdle? && !t.readerWaiting && t.sent == s.sent && |t.received| == |s.received| + 1
    decreases StepsToAdvance(s.rpc)
  {
    var t := Step(s, Reader);
    AwakeReaderMoves(s);
    hide Inv, Step;
    if s.rpc.RAdvance? {
      n := 1;
      ExecRepeat(s, Reader, 1);
      ExecNone(t, Reader);
    } else {
      var m := ReaderAdvances(t);
      n := m + 1;
      ExecRepeat(s, Reader, n);
    }
  }

  /** A reader that is not left waiting, with a value queued, gets one step nearer to it. */
  lemma AwakeReaderMoves(s: State)
    requires Inv(s) && s.wpc.WIdle? && !s.readerWaiting && Count(s) > 0
    ensures var t := Step(s, Reader);
            && Inv(t) && t.wpc.WIdle? && !t.readerWaiting && t.sent == s.sent
            && (if s.rpc.RAdvance? then |t.received| == |s.received| + 1
                else t.received == s.received && StepsToAdvance(t.rpc) < StepsToAdvance(s.rpc))
  {
    QueuedIsCount(s);
    AwakeReader(s);
    ReaderStepInv(s);
    hide Inv;
    if InTake(s.rpc) { TakeMoves(s); } else { EnterMoves(s); }
  }

  lemma AwakeReader(s: State)
    requires Inv(s) && s.wpc.WIdle? && !s.readerWaiting && Count(s) > 0
    ensures !ReaderBlocked(s) && !s.rpc.RSetWaiting?
  {
  }

  lemma TakeMoves(s: State)
    requires WellSized(s) && InTake(s.rpc)
    ensures var t := TakeStep(s);
            && t.wpc == s.wpc && t.readerWaiting == s.readerWaiting && t.sent == s.sent
            && (if s.rpc.RAdvance? then |t.received| == |s.received| + 1
                else t.received == s.received && StepsToAdvance(t.rpc) < StepsToAdvance(s.rpc))
  {
  }

  lemma EnterMoves(s: State)
    requires WellSized(s) && !InTake(s.rpc) && !ReaderBlocked(s) && !s.rpc.RSetWaiting? && s.rdp != s.wrp
    ensures var t := EnterStep(s);
            && t.wpc == s.wpc && t.readerWaiting == s.readerWaiting && t.sent == s.sent
            && t.received == s.received && StepsToAdvance(t.rpc) < StepsToAdvance(s.rpc)
  {
  }

  lemma {:induction false} ReaderDrains(s: State)
    returns (n: nat)
    requires Inv(s) && s.wpc.WIdle? && !s.readerWaiting
    ensures var t := Exec(s, Reads(n)); t.sent == s.sent && t.received == Values(s.sent)
    decreases Count(s)
  {
    if Count(s) == 0 {
      n := 0;
    } else {
      var a := ReaderAdvances(s);
      var b := ReaderDrains(Exec(s, Reads(a)));
      n := a + b;
      assert Reads(n) == Reads(a) + Reads(b);
      ExecAppend(s, Reads(a), Reads(b));
    }
  }

  /** Once a write that fills the pipe to `chunks`, or was sent with no_buffer, has returned, the
      reader running alone receives every value written so far, in order. */
  lemma WokenReaderReceivesAll(chunks: int, data: seq<Cell>, call: Item, taken: Cell, schedule: seq<Choice>)
    returns (n: nat)
    requires |data| >= 2 && chunks < |data|
    requires var s := Exec(Init(chunks, data, call, taken), schedule);
             && s.wpc.WIdle? && |s.sent| > |s.received|
             && (s.sent[|s.sent| - 1].noBuffer || |s.sent| - |s.received| >= chunks)
    ensures var s := Exec(Init(chunks, data, call, taken), schedule);
            Exec(s, Reads(n)).received == Values(s.sent)
  {
    ExecInv(Init(chunks, data, call, taken), schedule);
    n := ReaderDrains(Exec(Init(chunks, data, call, taken), schedule));
  }

  /* ---------- The overrun when `chunks` is too large ---------- */

  /** The reader finds the pipe empty and goes to sleep. */
  function ParkReader(): seq<Choice> {
    Reads(5)
  }

  /** `n` buffered writes of the values 0, 1, ... n - 1. */
  function Sends(n: nat): seq<Choice> {
    if n == 0 then [] else Sends(n - 1) + SendOne(n - 1)
  }

  function SendOne(value: Cell): seq<Choice> {
    Repeat(Writer(Item(value, false)), 6)
  }

  ghost predicate Asleep(s: State) {
    s.rpc.RWait? && s.readerWaiting && s.readerSem == 0 && s.wpc.WIdle?
  }

  /** The reader locks, finds nothing, sets its flag and unlocks. */
  lemma ParkSteps(s: State)
    requires s.lock == 1 && s.rdp == s.wrp && WellSized(s)
    ensures EnterStep(s.(rpc := RIdle)) == s.(rpc := RLock)
    ensures EnterStep(s.(rpc := RLock)) == s.(rpc := RCheckEmpty, lock := 0)
    ensures EnterStep(s.(rpc := RCheckEmpty, lock := 0)) == s.(rpc := RSetWaiting, lock := 0)
    ensures EnterStep(s.(rpc := RSetWaiting, lock := 0)) == s.(rpc := RUnlock, lock := 0, readerWaiting := true)
    ensures EnterStep(s.(rpc := RUnlock, lock := 0, readerWaiting := true)) == s.(rpc := RWait, readerWaiting := true)
  {
  }

  lemma ParkedReader(s: State)
    requires WellSized(s) && s.rpc.RIdle? && s.lock == 1 && s.rdp == s.wrp && s.readerSem == 0 && s.wpc.WIdle?
    ensures Exec(s, ParkReader()) == s.(rpc := RWait, readerWaiting := true)
  {
    ParkSteps(s);
    hide Exec, Repeat, EnterStep;
    var checked := s.(rpc := RSetWaiting, lock := 0);
    EnterOf(s, s.(rpc := RLock), 5);
    EnterOf(s.(rpc := RLock), s.(rpc := RCheckEmpty, lock := 0), 4);
    EnterOf(s.(rpc := RCheckEmpty, lock := 0), checked, 3);
    FlagAndUnlock(s);
  }

  lemma FlagAndUnlock(s: State)
    requires WellSized(s) && s.lock == 1 && s.rdp == s.wrp
    ensures Exec(s.(rpc := RSetWaiting, lock := 0), Reads(2)) == s.(rpc := RWait, readerWaiting := true)
  {
    ParkSteps(s);
    hide Exec, Repeat, EnterStep;
    var flagged := s.(rpc := RUnlock, lock := 0, readerWaiting := true);
    EnterOf(s.(rpc := RSetWaiting, lock := 0), flagged, 2);
    EnterOf(flagged, s.(rpc := RWait, readerWaiting := true), 1);
    ExecNone(s.(rpc := RWait, readerWaiting := true), Reader);
  }

  /** The state after the lock-free write of one buffered value. */
  function AfterFastSend(s: State, value: Cell): State
    requires WellSized(s)
  {
    s.(call := Item(value, false), data := s.data[s.wrp := value],
       wrp := NextSlot(s), sent := s.sent + [Item(value, false)])
  }

  lemma OneFastSend(s: State, value: Cell)
    requires WellSized(s) && Asleep(s) && s.chunks >= s.size
    ensures Exec(s, SendOne(value)) == AfterFastSend(s, value)
  {
    hide Exec, Repeat;
    var c := Writer(Item(value, false));
    var stored := s.(call := Item(value, false), data := s.data[s.wrp := value], wpc := WAdvance(true));
    FastSendStores(s, c);
    FastSendReturns(stored, c);
  }

  /** The writer enters, sees the waiting reader, and stores. */
  lemma FastSteps(s: State, c: Choice)
    requires WellSized(s) && s.readerWaiting && c.Writer? && s.wpc.WIdle?
    ensures !WriterBlocked(s) && LockStep(s, c.next) == s.(call := c.next, wpc := WCheckWaiting)
    ensures var t := s.(call := c.next, wpc := WCheckWaiting);
            WellSized(t) && !WriterBlocked(t) && LockStep(t, c.next) == t.(wpc := WStore(true))
    ensures var t := s.(call := c.next, wpc := WStore(true));
            WellSized(t) && StoreStep(t) == t.(data := s.data[s.wrp := c.next.value], wpc := WAdvance(true))
  {
  }

  lemma FastSendStores(s: State, c: Choice)
    requires WellSized(s) && s.readerWaiting && c.Writer? && s.wpc.WIdle?
    ensures Exec(s, Repeat(c, 6)) ==
            Exec(s.(call := c.next, data := s.data[s.wrp := c.next.value], wpc := WAdvance(true)), Repeat(c, 3))
  {
    hide Exec, Repeat, WakeStep, LockStep, StoreStep, WriterBlocked, WellSized;
    FastSteps(s, c);
    StoredIsSized(s, c.next);
    var s1 := s.(call := c.next, wpc := WCheckWaiting);
    var s2 := s1.(wpc := WStore(true));
    LockOf(s, c, s1, 6);
    LockOf(s1, c, s2, 5);
    StoreOf(s2, c, s2.(data := s.data[s.wrp := c.next.value], wpc := WAdvance(true)), 4);
  }

  lemma StoredIsSized(s: State, next: Item)
    requires WellSized(s)
    ensures 0 <= s.wrp < |s.data| && s.size > 0
    ensures WellSized(s.(call := next, data := s.data[s.wrp := next.value], wpc := WAdvance(true)))
  {
  }

  /** The writer advances, finds fewer than `chunks` values, and leaves. */
  lemma ReturnSteps(s: State, t: State)
    requires WellSized(s) && s.chunks >= s.size && s.readerWaiting && s.wpc == WAdvance(true) && !s.call.noBuffer
    requires t == s.(wrp := NextSlot(s), sent := s.sent + [s.call], wpc := WWake(true))
    ensures StoreStep(s) == t
    ensures WellSized(t) && WakeStep(t) == t.(wpc := WTest(true))
    ensures WellSized(t.(wpc := WTest(true))) && WakeStep(t.(wpc := WTest(true))) == t.(wpc := WIdle)
    ensures WellSized(t.(wpc := WIdle))
  {
    hide Queued;
  }

  lemma FastSendReturns(s: State, c: Choice)
    requires WellSized(s) && s.chunks >= s.size && s.readerWaiting && c.Writer?
    requires s.wpc == WAdvance(true) && !s.call.noBuffer
    ensures Exec(s, Repeat(c, 3)) ==
            s.(wrp := NextSlot(s), sent := s.sent + [s.call], wpc := WIdle)
  {
    hide NextSlot, StoreStep, WakeStep, Exec, Repeat;
    var s1 := s.(wrp := NextSlot(s), sent := s.sent + [s.call], wpc := WWake(true));
    ReturnSteps(s, s1);
    ThreeSteps(s, s1, s1.(wpc := WTest(true)), s1.(wpc := WIdle), c);
  }

  lemma ThreeSteps(s: State, s1: State, s2: State, s3: State, c: Choice)
    requires WellSized(s) && InStore(s.wpc) && StoreStep(s) == s1 && c.Writer?
    requires WellSized(s1) && InWake(s1.wpc) && WakeStep(s1) == s2
    requires WellSized(s2) && InWake(s2.wpc) && WakeStep(s2) == s3 && WellSized(s3)
    ensures Exec(s, Repeat(c, 3)) == s3
  {
    hide StoreStep, WakeStep, Exec, Repeat, WellSized, InStore, InWake;
    StoreOf(s, c, s1, 3);
    WakeOf(s1, c, s2, 2);
    WakeOf(s2, c, s3, 1);
    ExecNone(s3, c);
  }

  /** A sleeping reader and `n` buffered values, the newest of them in the last slot written. */
  ghost predicate SentByFastPath(s: State, n: nat)
    requires WellSized(s)
  {
    && Asleep(s) && s.chunks >= s.size && s.received == [] && s.wrp == n % s.size && |s.sent| == n
    && (forall i :: 0 <= i < n ==> s.sent[i] == Item(i, false))
    && (n >= 1 ==> s.data[(n - 1) % s.size] == n - 1)
  }

  lemma SendKeeps(s: State, n: nat)
    requires WellSized(s) && SentByFastPath(s, n)
    ensures WellSized(AfterFastSend(s, n)) && SentByFastPath(AfterFastSend(s, n), n + 1)
  {
    ModAdd(n, 1, s.size);
  }

  lemma {:induction false} FastSends(s: State, n: nat)
    requires WellSized(s) && SentByFastPath(s, 0)
    ensures SentByFastPath(Exec(s, Sends(n)), n)
  {
    if n > 0 {
      FastSends(s, n - 1);
      ExecAppend(s, Sends(n - 1), SendOne(n - 1));
      OneFastSend(Exec(s, Sends(n - 1)), n - 1);
      SendKeeps(Exec(s, Sends(n - 1)), n - 1);
    }
  }

  /** A sleeping reader and one buffered write more than there are slots. */
  function OverrunSchedule(size: int): seq<Choice>
    requires size >= 0
  {
    ParkReader() + Sends(size + 1)
  }

  lemma Overrun(s: State, t: State)
    requires WellSized(s) && s.chunks >= s.size && s == Init(s.chunks, s.data, s.call, s.taken)
    requires t == Exec(s, OverrunSchedule(s.size))
    ensures !Safe(t)
  {
    hide Exec, SentByFastPath, Safe, ParkReader, Sends, Init;
    OverrunRuns(s, t);
    LostValue(t);
  }

  lemma OverrunRuns(s: State, t: State)
    requires WellSized(s) && s.chunks >= s.size && s == Init(s.chunks, s.data, s.call, s.taken)
    requires t == Exec(s, OverrunSchedule(s.size))
    ensures t.size == s.size && SentByFastPath(t, s.size + 1)
  {
    hide Exec, SentByFastPath, ParkReader, Sends;
    var parked := s.(rpc := RWait, readerWaiting := true);
    ReadyToOverrun(s);
    ExecAppend(s, ParkReader(), Sends(s.size + 1));
    ParkedReader(s);
    FastSends(parked, s.size + 1);
  }

  lemma ReadyToOverrun(s: State)
    requires WellSized(s) && s.chunks >= s.size && s == Init(s.chunks, s.data, s.call, s.taken)
    ensures s.rpc.RIdle? && s.lock == 1 && s.rdp == s.wrp && s.readerSem == 0 && s.wpc.WIdle?
    ensures SentByFastPath(s.(rpc := RWait, readerWaiting := true), 0)
  {
  }

  lemma LostValue(s: State)
    requires WellSized(s) && SentByFastPath(s, s.size + 1)
    ensures !Safe(s)
  {
    ModShift(0, s.size, 1);
    assert s.data[0 % s.size] != s.sent[0].value;
  }

  /* ---------- The pipe as it sits in memory ---------- */

  /** smp_comm_pipe with the program counters of its two users.  Every move changes the fields in
      place and is one step of the protocol above. */
  class SmpCommPipe {
    const size: int
    const chunks: int
    const data: array<Cell>
    var rdp: int
    var wrp: int
    var readerWaiting: bool
    var writerWaiting: bool
    var lock: nat
    var readerSem: nat
    var writerSem: nat
    var wpc: WriterPc
    var call: Item
    var rpc: ReaderPc
    var taken: Cell
    ghost var sent: seq<Item>
    ghost var received: seq<Cell>

    ghost function Model(): State
      reads this, data
    {
      State(size, chunks, data[..], rdp, wrp, readerWaiting, writerWaiting, lock, readerSem, writerSem,
            wpc, call, rpc, taken, sent, received)
    }

    ghost predicate Valid()
      reads this, data
    {
      WellSized(Model())
    }

    constructor (size: int, chunks: int)
      requires size >= 1
      ensures Valid() && fresh(data) && this.size == size
      ensures Model() == Init(chunks, data[..], call, taken)
    {
      this.size := size;
      this.chunks := chunks;
      data := new Cell[size];
      rdp, wrp := 0, 0;
      readerWaiting, writerWaiting := false, false;
      lock, readerSem, writerSem := 1, 0, 0;
      wpc, rpc := WIdle, RIdle;
      sent, received := [], [];
    }

    method MoveWriter(next: Item)
      requires Valid()
      modifies this, data
      ensures Valid() && Model() == Step(old(Model()), Writer(next))
    {
      if InWake(wpc) { MaybeWakeReader(); } else if InStore(wpc) { PutSlot(); } else { MoveOutside(next); }
    }

    method MoveOutside(next: Item)
      requires Valid() && !InWake(wpc) && !InStore(wpc)
      modifies this
      ensures Valid()
      ensures Model() == if old(WriterBlocked(Model())) then old(Model()) else LockStep(old(Model()), next)
    {
      if AtSemaphore(wpc) { MoveSemaphore(next); } else { MoveChecks(next); }
    }

    /** The writer's tests and flags. */
    method MoveChecks(next: Item)
      requires Valid() && !InWake(wpc) && !InStore(wpc) && !AtSemaphore(wpc)
      modifies `wpc, `call, `writerWaiting
      ensures Valid() && !old(WriterBlocked(Model())) && Model() == LockStep(old(Model()), next)
    {
      match wpc
      case WIdle => call := next; wpc := WCheckWaiting;
      case WCheckWaiting => wpc := if readerWaiting then WStore(true) else WLock;
      case WCheckFull => wpc := if (wrp + 1) % size == rdp then WSetWaiting else WStore(false);
      case WSetWaiting => writerWaiting := true; wpc := WUnlock;
    }

    /** The writer's semaphore operations. */
    method MoveSemaphore(ghost next: Item)
      requires Valid() && AtSemaphore(wpc)
      modifies `wpc, `lock, `writerSem
      ensures Valid()
      ensures Model() == if old(WriterBlocked(Model())) then old(Model()) else LockStep(old(Model()), next)
    {
      match wpc
      case WLock => if lock > 0 { lock := lock - 1; wpc := WCheckFull; }
      case WUnlock => lock := lock + 1; wpc := WWait;
      case WWait => if writerSem > 0 { writerSem := writerSem - 1; wpc := WRelock; }
      case WRelock => if lock > 0 { lock := lock - 1; wpc := WStore(false); }
      case WRelease => lock := lock + 1; wpc := WIdle;
    }

    method PutSlot()
      requires Valid() && InStore(wpc)
      modifies this, data
      ensures Valid() && Model() == StoreStep(old(Model()))
    {
      match wpc
      case WStore(fast) => data[wrp] := call.value; wpc := WAdvance(fast);
      case WAdvance(fast) => wrp := (wrp + 1) % size; sent := sent + [call]; wpc := WWake(fast);
    }

    method MaybeWakeReader()
      requires Valid() && InWake(wpc)
      modifies this
      ensures Valid() && Model() == WakeStep(old(Model()))
    {
      match wpc
      case WWake(fast) => wpc := if readerWaiting then WTest(fast) else AfterWake(fast);
      case WTest(fast) =>
        wpc := if call.noBuffer || (wrp - rdp + size) % size >= chunks then WClear(fast) else AfterWake(fast);
      case WClear(fast) => readerWaiting := false; wpc := WPost(fast);
      case WPost(fast) => readerSem := readerSem + 1; wpc := AfterWake(fast);
    }

    method MoveReader()
      requires Valid()
      modifies this
      ensures Valid() && Model() == Step(old(Model()), Reader)
    {
      if InTake(rpc) { TakeSlot(); } else { EnterPipe(); }
    }

    method EnterPipe()
      requires Valid() && !InTake(rpc)
      modifies this
      ensures Valid()
      ensures Model() == if old(ReaderBlocked(Model())) then old(Model()) else EnterStep(old(Model()))
    {
      match rpc
      case RIdle => rpc := RLock;
      case RLock => if lock > 0 { lock := lock - 1; rpc := RCheckEmpty; }
      case RCheckEmpty => rpc := if rdp == wrp then RSetWaiting else RTake;
      case RSetWaiting => readerWaiting := true; rpc := RUnlock;
      case RUnlock => lock := lock + 1; rpc := RWait;
      case RWait => if readerSem > 0 { readerSem := readerSem - 1; rpc := RRelock; }
      case RRelock => if lock > 0 { lock := lock - 1; rpc := RTake; }
    }

    method TakeSlot()
      requires Valid() && InTake(rpc)
      modifies this
      ensures Valid() && Model() == TakeStep(old(Model()))
    {
      match rpc
      case RTake => taken := data[rdp]; rpc := RAdvance;
      case RAdvance => rdp := (rdp + 1) % size; received := received + [taken]; rpc := RCheckWriter;
      case RCheckWriter => rpc := if writerWaiting then RClear else RRelease;
      case RClear => writerWaiting := false; rpc := RPost;
      case RPost => writerSem := writerSem + 1; rpc := RRelease;
      case RRelease => lock := lock + 1; rpc := RIdle;
    }
  }
}
