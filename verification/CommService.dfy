/** The calls of the two pipe threads (include/commpipe.h): over any interleaving no call is lost, repeated or
    changed, a write wakes a waiting reader exactly when it should, and a write with room needs no help. */
module CommService {
  import opened CommPipe

  /* ---------- Every call is served ---------- */

  /** The writer has been called and has not yet advanced `wrp`. */
  function Writing(s: State): seq<Item> {
    if s.wpc.WIdle? || s.wpc.WRelease? || InWake(s.wpc) then [] else [s.call]
  }

  /** The calls that the writer begins in a schedule. */
  function Written(s: State, schedule: seq<Choice>): seq<Item>
    requires WellSized(s)
    decreases |schedule|
  {
    if schedule == [] then []
    else
      (if schedule[0].Writer? && s.wpc.WIdle? then [schedule[0].next] else []) +
      Written(Step(s, schedule[0]), schedule[1..])
  }

  /** The reader has been called and has not yet advanced `rdp`. */
  function Reading(s: State): nat {
    if s.rpc.RIdle? || s.rpc.RCheckWriter? || s.rpc.RClear? || s.rpc.RPost? || s.rpc.RRelease? then 0 else 1
  }

  /** The number of calls that the reader begins in a schedule. */
  function ReadsBegun(s: State, schedule: seq<Choice>): nat
    requires WellSized(s)
    decreases |schedule|
  {
    if schedule == [] then 0
    else
      (if schedule[0].Reader? && s.rpc.RIdle? then 1 else 0) + ReadsBegun(Step(s, schedule[0]), schedule[1..])
  }

  lemma WriterServes(s: State, next: Item)
    requires WellSized(s) && !WriterBlocked(s)
    ensures var t := WriterStep(s, next);
            && t.received == s.received && t.rpc == s.rpc
            && t.sent + Writing(t) == s.sent + Writing(s) + if s.wpc.WIdle? then [next] else []
  {
    hide NextSlot, Queued, Writing;
    if InWake(s.wpc) {
      ServedAlike(s, WakeStep(s));
    } else if InStore(s.wpc) {
      StoreServes(s);
    } else {
      LockServes(s, next);
    }
  }

  /** Nothing is advanced or begun. */
  lemma ServedAlike(s: State, t: State)
    requires InWake(s.wpc) && t.sent == s.sent && (t.wpc.WIdle? || t.wpc.WRelease? || InWake(t.wpc))
    ensures t.sent + Writing(t) == s.sent + Writing(s)
  {
  }

  lemma StoreServes(s: State)
    requires WellSized(s) && InStore(s.wpc)
    ensures var t := StoreStep(s); t.sent + Writing(t) == s.sent + Writing(s)
  {
    hide NextSlot;
  }

  lemma LockServes(s: State, next: Item)
    requires WellSized(s) && !WriterBlocked(s) && !InWake(s.wpc) && !InStore(s.wpc)
    ensures var t := LockStep(s, next);
            && t.received == s.received && t.rpc == s.rpc && t.sent == s.sent
            && Writing(t) == Writing(s) + if s.wpc.WIdle? then [next] else []
  {
    hide NextSlot;
  }

  lemma ReaderServes(s: State)
    requires WellSized(s) && !ReaderBlocked(s)
    ensures var t := ReaderStep(s);
            && t.sent == s.sent && t.wpc == s.wpc && t.call == s.call
            && |t.received| + Reading(t) == |s.received| + Reading(s) + if s.rpc.RIdle? then 1 else 0
  {
    hide Reading;
    if InTake(s.rpc) { TakeServes(s); } else { EnterServes(s); }
  }

  lemma TakeServes(s: State)
    requires WellSized(s) && InTake(s.rpc)
    ensures var t := TakeStep(s);
            && t.sent == s.sent && t.wpc == s.wpc && t.call == s.call
            && |t.received| + Reading(t) == |s.received| + Reading(s)
  {
  }

  lemma EnterServes(s: State)
    requires WellSized(s) && !ReaderBlocked(s) && !InTake(s.rpc)
    ensures var t := EnterStep(s);
            && t.sent == s.sent && t.wpc == s.wpc && t.call == s.call && t.received == s.received
            && Reading(t) == Reading(s) + if s.rpc.RIdle? then 1 else 0
  {
  }

  lemma StepServes(s: State, c: Choice)
    requires WellSized(s)
    ensures Step(s, c).sent + Writing(Step(s, c)) ==
            s.sent + Writing(s) + if c.Writer? && s.wpc.WIdle? then [c.next] else []
    ensures |Step(s, c).received| + Reading(Step(s, c)) ==
            |s.received| + Reading(s) + if c.Reader? && s.rpc.RIdle? then 1 else 0
  {
    hide WriterStep, ReaderStep;
    match c
    case Writer(next) => if !WriterBlocked(s) { WriterServes(s, next); }
    case Reader => if !ReaderBlocked(s) { ReaderServes(s); }
  }

  lemma {:induction false} ExecServes(s: State, schedule: seq<Choice>)
    requires WellSized(s)
    ensures var t := Exec(s, schedule);
            && t.sent + Writing(t) == s.sent + Writing(s) + Written(s, schedule)
            && |t.received| + Reading(t) == |s.received| + Reading(s) + ReadsBegun(s, schedule)
    decreases |schedule|
  {
    hide Step, Writing, Reading;
    if schedule != [] {
      StepServes(s, schedule[0]);
      ExecServes(Step(s, schedule[0]), schedule[1..]);
    }
  }

  /** In every interleaving the values written are those of the calls, in order and each once, but for the call that
      is under way; and every call of the reader but the one under way has been given one value, in the order of
      the writes. */
  lemma CallsAreServed(chunks: int, data: seq<Cell>, call: Item, taken: Cell, schedule: seq<Choice>)
    requires |data| >= 2 && chunks < |data|
    ensures var s := Init(chunks, data, call, taken);
            var t, writes := Exec(s, schedule), Written(s, schedule);
            && t.sent <= writes && |writes| <= |t.sent| + 1
            && (t.wpc.WIdle? ==> t.sent == writes)
            && |t.received| <= ReadsBegun(s, schedule) <= |t.received| + 1
            && (t.rpc.RIdle? ==> |t.received| == ReadsBegun(s, schedule))
            && |t.received| <= |writes|
            && forall i :: 0 <= i < |t.received| ==> t.received[i] == writes[i].value
  {
    var s := Init(chunks, data, call, taken);
    ExecServes(s, schedule);
    ExecInv(s, schedule);
    hide Inv, Exec, Written, ReadsBegun, Reading, Writing;
    NothingBegun(s, Written(s, schedule));
    ServedSoFar(Exec(s, schedule), Written(s, schedule), ReadsBegun(s, schedule));
  }

  lemma NothingBegun(s: State, writes: seq<Item>)
    requires s == Init(s.chunks, s.data, s.call, s.taken)
    ensures s.sent + Writing(s) + writes == writes && |s.received| + Reading(s) == 0
  {
  }

  lemma ServedSoFar(t: State, writes: seq<Item>, begun: nat)
    requires Inv(t) && t.sent + Writing(t) == writes && |t.received| + Reading(t) == begun
    ensures t.sent <= writes && |writes| <= |t.sent| + 1 && (t.wpc.WIdle? ==> t.sent == writes)
    ensures |t.received| <= begun <= |t.received| + 1 && (t.rpc.RIdle? ==> |t.received| == begun)
    ensures |t.received| <= |writes| && forall i :: 0 <= i < |t.received| ==> t.received[i] == writes[i].value
  {
    ReadsAreWrites(t);
    hide Inv;
    assert forall i :: 0 <= i < |t.sent| ==> writes[i] == t.sent[i];
  }

  lemma ReadsAreWrites(s: State)
    requires Inv(s)
    ensures |s.received| <= |s.sent| && forall i :: 0 <= i < |s.received| ==> s.received[i] == s.sent[i].value
  {
  }

  /* ---------- Waking the reader ---------- */

  /** In every reachable state a write that finds the reader waiting wakes it if and only if it asks for it or the
      pipe now holds `chunks` values. */
  lemma WakesExactlyWhen(chunks: int, data: seq<Cell>, call: Item, taken: Cell, schedule: seq<Choice>, next: Item)
    requires |data| >= 2 && chunks < |data|
    requires Exec(Init(chunks, data, call, taken), schedule).wpc.WTest?
    ensures var s := Exec(Init(chunks, data, call, taken), schedule);
            var wakes := s.call.noBuffer || |s.sent| - |s.received| >= chunks;
            var u := if wakes then Exec(s, Repeat(Writer(next), 3)) else Exec(s, Repeat(Writer(next), 1));
            && (s.wpc.fast ==> u.wpc.WIdle?) && (!s.wpc.fast ==> u.wpc.WRelease?) && s.readerWaiting
            && u.readerWaiting == !wakes && u.readerSem == (if wakes then s.readerSem + 1 else s.readerSem)
            && u.sent == s.sent && u.received == s.received
  {
    hide Exec, Repeat;
    ExecInv(Init(chunks, data, call, taken), schedule);
    var s := Exec(Init(chunks, data, call, taken), schedule);
    TestKnows(s);
    hide Inv;
    var c := Writer(next);
    if s.call.noBuffer || Count(s) >= chunks {
      ThreeSteps(s, c);
    } else {
      ExecRepeat(s, c, 1);
      ExecNone(Step(s, c), c);
    }
  }

  lemma TestKnows(s: State)
    requires Inv(s)
    ensures WellSized(s) && Queued(s) == Count(s) && (s.wpc.WTest? ==> s.readerWaiting)
  {
    QueuedIsCount(s);
  }

  lemma ThreeSteps(s: State, c: Choice)
    requires WellSized(s) && s.wpc.WTest? && s.readerWaiting && c.Writer?
    requires s.call.noBuffer || Queued(s) >= s.chunks
    ensures Exec(s, Repeat(c, 3)) ==
            s.(readerWaiting := false, readerSem := s.readerSem + 1, wpc := if s.wpc.fast then WIdle else WRelease)
  {
    hide Exec, Repeat, Queued;
    var cleared := s.(readerWaiting := false, wpc := WPost(s.wpc.fast));
    ExecRepeat(s, c, 3);
    ExecRepeat(s.(wpc := WClear(s.wpc.fast)), c, 2);
    ExecRepeat(cleared, c, 1);
    ExecNone(Step(cleared, c), c);
  }

  /* ---------- A write with room ---------- */

  /** How many writer steps remain until the call returns. */
  function StepsToReturn(p: WriterPc): nat {
    match p
    case WIdle => 0
    case WRelease => 1
    case WPost(_) => 2
    case WClear(_) => 3
    case WTest(_) => 4
    case WWake(_) => 5
    case WAdvance(_) => 6
    case WStore(_) => 7
    case WCheckFull => 8
    case WLock => 9
    case WCheckWaiting => 10
    case WRelock => 8
    case WWait => 9
    case WUnlock => 10
    case WSetWaiting => 11
  }

  /** A write is under way that need not wait: the reader does not hold the lock and there is room. */
  ghost predicate Free(s: State) {
    && Inv(s) && !ReaderHoldsLock(s.rpc) && !WriterParked(s.wpc) && !s.wpc.WSetWaiting? && !s.wpc.WRelock?
    && (Writing(s) != [] ==> Count(s) <= s.size - 2)
  }

  lemma FreeWriterMoves(s: State, next: Item)
    requires Free(s) && !s.wpc.WIdle?
    ensures var t := Step(s, Writer(next));
            Free(t) && t.call == s.call && t.received == s.received &&
            StepsToReturn(t.wpc) < StepsToReturn(s.wpc) && t.sent + Writing(t) == s.sent + Writing(s)
  {
    NotBlocked(s);
    WriterStepInv(s, next);
    StepServes(s, Writer(next));
    QueuedIsCount(s);
    KeepsFree(s, next);
  }

  lemma NotBlocked(s: State)
    requires Free(s)
    ensures WellSized(s) && Ring(s) && !WriterBlocked(s)
  {
  }

  lemma KeepsFree(s: State, next: Item)
    requires WellSized(s) && !WriterBlocked(s) && !s.wpc.WIdle?
    requires NextSlot(s) == s.rdp <==> Count(s) == s.size - 1
    requires !WriterParked(s.wpc) && !s.wpc.WSetWaiting? && !s.wpc.WRelock? && !ReaderHoldsLock(s.rpc)
    requires Writing(s) != [] ==> Count(s) <= s.size - 2
    ensures var t := WriterStep(s, next);
            && t.call == s.call && t.received == s.received && t.rpc == s.rpc
            && !WriterParked(t.wpc) && !t.wpc.WSetWaiting? && !t.wpc.WRelock?
            && (Writing(t) != [] ==> Count(t) <= t.size - 2) && StepsToReturn(t.wpc) < StepsToReturn(s.wpc)
  {
    hide NextSlot, Queued, ReaderHoldsLock;
    if InWake(s.wpc) {
      WakeReturns(s);
    } else if !InStore(s.wpc) {
      LockReturns(s, next);
    }
  }

  lemma WakeReturns(s: State)
    requires WellSized(s) && InWake(s.wpc)
    ensures var t := WakeStep(s);
            && t.call == s.call && t.sent == s.sent && t.received == s.received && t.rpc == s.rpc
            && !WriterParked(t.wpc) && !t.wpc.WSetWaiting? && !t.wpc.WRelock?
            && Writing(t) == [] && StepsToReturn(t.wpc) < StepsToReturn(s.wpc)
  {
    hide Queued;
  }

  lemma LockReturns(s: State, next: Item)
    requires WellSized(s) && !WriterBlocked(s) && !s.wpc.WIdle? && !InWake(s.wpc) && !InStore(s.wpc)
    requires NextSlot(s) == s.rdp <==> Count(s) == s.size - 1
    requires !WriterParked(s.wpc) && !s.wpc.WSetWaiting? && !s.wpc.WRelock?
    requires Writing(s) != [] ==> Count(s) <= s.size - 2
    ensures var t := LockStep(s, next);
            && t.call == s.call && t.sent == s.sent && t.received == s.received && t.rpc == s.rpc
            && !WriterParked(t.wpc) && !t.wpc.WSetWaiting? && !t.wpc.WRelock?
            && (Writing(t) != [] ==> Count(t) <= t.size - 2) && StepsToReturn(t.wpc) < StepsToReturn(s.wpc)
  {
    hide NextSlot;
  }

  lemma {:induction false} FreeWriterReturns(s: State, next: Item) returns (n: nat)
    requires Free(s)
    ensures WellSized(s)
    ensures var t := Exec(s, Repeat(Writer(next), n));
            t.wpc.WIdle? && t.received == s.received && t.sent == s.sent + Writing(s)
    decreases StepsToReturn(s.wpc)
  {
    hide Inv, Step;
    SizedWhenFree(s);
    if s.wpc.WIdle? {
      n := 0;
      ExecNone(s, Writer(next));
    } else {
      var t := Step(s, Writer(next));
      FreeWriterMoves(s, next);
      var m := FreeWriterReturns(t, next);
      n := m + 1;
      ExecRepeat(s, Writer(next), n);
    }
  }

  lemma SizedWhenFree(s: State)
    requires Free(s)
    ensures WellSized(s)
  {
  }

  /** A write that begins with room in the pipe, while the reader is outside its critical section, returns without
      the reader having to move, and has added its own value. */
  lemma WriteWithRoom(chunks: int, data: seq<Cell>, call: Item, taken: Cell, schedule: seq<Choice>, next: Item)
    returns (n: nat)
    requires |data| >= 2 && chunks < |data|
    requires var s := Exec(Init(chunks, data, call, taken), schedule);
             && s.wpc.WIdle? && |s.sent| - |s.received| <= |data| - 2
             && (s.rpc.RIdle? || s.rpc.RLock? || s.rpc.RWait? || s.rpc.RRelock?)
    ensures var s := Exec(Init(chunks, data, call, taken), schedule);
            var t := Exec(s, Repeat(Writer(next), n));
            t.wpc.WIdle? && t.sent == s.sent + [next] && t.received == s.received
  {
    hide Exec, Inv, Free, Repeat, Step;
    SafeFromInit(chunks, data, call, taken, schedule);
    var s := Exec(Init(chunks, data, call, taken), schedule);
    WriteBegins(s, next);
    var m := FreeWriterReturns(Step(s, Writer(next)), next);
    n := m + 1;
    ExecRepeat(s, Writer(next), n);
  }

  lemma SafeFromInit(chunks: int, data: seq<Cell>, call: Item, taken: Cell, schedule: seq<Choice>)
    requires |data| >= 2 && chunks < |data|
    ensures Inv(Exec(Init(chunks, data, call, taken), schedule))
  {
    ExecInv(Init(chunks, data, call, taken), schedule);
  }

  /** The first step of a call. */
  lemma WriteBegins(s: State, next: Item)
    requires Inv(s) && s.wpc.WIdle? && |s.sent| - |s.received| <= s.size - 2
    requires s.rpc.RIdle? || s.rpc.RLock? || s.rpc.RWait? || s.rpc.RRelock?
    ensures WellSized(s)
    ensures var t := Step(s, Writer(next));
            Free(t) && t.sent == s.sent && t.received == s.received && Writing(t) == [next]
  {
    WriterStepInv(s, next);
    hide Inv;
  }
}
